/** The batch driver of `main.py`: `process_jobs` and the shape dispatch of `load_input_data`. */
module Batch {
  import opened Wrappers
  import opened JsonValue
  import opened JobParser

  /** A record that `process_jobs` logs and drops: its 1-based position and the error. */
  datatype FailureReport = FailureReport(index: nat, error: ParseError)

  /** The error `load_input_data` raises for an unusable top-level shape. */
  datatype InputError = UnsupportedStructure

  /** The envelope keys `load_input_data` tries, in order. */
  const EnvelopeKeys: seq<string> := ["items", "results", "jobs"]

  /** Where Python's slice `s[:m]` ends on a sequence of length `n`: a negative `m` counts
      from the end, and the bound is clamped to `0..n`. */
  function SliceEnd(m: int, n: nat): (e: nat)
    ensures e <= n
    ensures m >= 0 ==> e == if m < n then m else n
    ensures m < 0 ==> e == if n + m > 0 then n + m else 0
  {
    if m >= 0 then (if m < n then m else n)
    else if n + m > 0 then n + m else 0
  }

  /** `raw_jobs if max_jobs is None else raw_jobs[:max_jobs]`. */
  function Attempted(rawJobs: seq<Json>, maxJobs: Option<int>): (r: seq<Json>)
    ensures maxJobs.None? ==> r == rawJobs
    ensures maxJobs.Some? && maxJobs.value >= 0 ==>
              |r| == (if maxJobs.value < |rawJobs| then maxJobs.value else |rawJobs|)
    ensures maxJobs.Some? && maxJobs.value < 0 ==>
              |rawJobs| - |r| == (if -maxJobs.value < |rawJobs| then -maxJobs.value else |rawJobs|)
    ensures |r| <= |rawJobs| && r == rawJobs[..|r|]
  {
    match maxJobs
    case None => rawJobs
    case Some(m) => rawJobs[..SliceEnd(m, |rawJobs|)]
  }

  /** The records that parse, in order. */
  function Successes(conv: Converters, jobs: seq<Json>): seq<JobRecord>
    decreases |jobs|
  {
    if jobs == [] then []
    else
      var parsed := JobRecordOf(conv, jobs[|jobs| - 1]);
      Successes(conv, jobs[..|jobs| - 1]) + (if parsed.Ok? then [parsed.value] else [])
  }

  /** The records that do not parse, each with its 1-based position, in order. */
  function Failures(conv: Converters, jobs: seq<Json>): seq<FailureReport>
    decreases |jobs|
  {
    if jobs == [] then []
    else
      var parsed := JobRecordOf(conv, jobs[|jobs| - 1]);
      Failures(conv, jobs[..|jobs| - 1]) + (if parsed.Err? then [FailureReport(|jobs|, parsed.error)] else [])
  }

  /** `process_jobs`: parse each attempted record, keep the successes, log and skip the rest. */
  method ProcessJobs(conv: Converters, rawJobs: seq<Json>, maxJobs: Option<int>)
    returns (processed: seq<JobRecord>, failures: seq<FailureReport>)
    ensures processed == Successes(conv, Attempted(rawJobs, maxJobs))
    ensures failures == Failures(conv, Attempted(rawJobs, maxJobs))
    ensures |processed| + |failures| == |Attempted(rawJobs, maxJobs)|
  {
    processed := [];
    failures := [];
    var toProcess := Attempted(rawJobs, maxJobs);
    var i := 0;
    while i < |toProcess|
      invariant 0 <= i <= |toProcess|
      invariant processed == Successes(conv, toProcess[..i])
      invariant failures == Failures(conv, toProcess[..i])
    {
      assert toProcess[..i + 1][..i] == toProcess[..i];
      var idx := i + 1;
      var parsed := ParseJob(conv, toProcess[i]);
      match parsed {
        case Ok(record) =>
          processed := processed + [record];
        case Err(e) =>
          failures := failures + [FailureReport(idx, e)];
      }
      i := i + 1;
    }
    assert toProcess[..|toProcess|] == toProcess;
    BatchCounts(conv, toProcess);
  }

  /** The first of `keys` under which `data` holds a list. */
  function FirstListUnder(data: map<string, Json>, keys: seq<string>): Result<seq<Json>, InputError>
  {
    if keys == [] then Err(UnsupportedStructure)
    else if keys[0] in data && data[keys[0]].JList? then Ok(data[keys[0]].items)
    else FirstListUnder(data, keys[1..])
  }

  /** The record list `load_input_data` hands on, or the error it raises. */
  function InputRecords(data: Json): Result<seq<Json>, InputError>
  {
    if data.JList? then Ok(data.items)
    else if data.JObj? then FirstListUnder(data.fields, EnvelopeKeys)
    else Err(UnsupportedStructure)
  }

  /** The shape dispatch of `load_input_data`, with its loop over the envelope keys. */
  method LoadInputData(data: Json) returns (r: Result<seq<Json>, InputError>)
    ensures r == InputRecords(data)
  {
    if data.JList? {
      return Ok(data.items);
    }
    if data.JObj? {
      var i := 0;
      while i < |EnvelopeKeys|
        invariant 0 <= i <= |EnvelopeKeys|
        invariant FirstListUnder(data.fields, EnvelopeKeys) == FirstListUnder(data.fields, EnvelopeKeys[i..])
      {
        var key := EnvelopeKeys[i];
        assert EnvelopeKeys[i..][0] == key && EnvelopeKeys[i..][1..] == EnvelopeKeys[i + 1..];
        if key in data.fields && data.fields[key].JList? {
          return Ok(data.fields[key].items);
        }
        i := i + 1;
      }
    }
    return Err(UnsupportedStructure);
  }

  // ---------------------------------------------------------------------------
  // Properties of the batch

  /** Every attempted record is either a success or a failure. */
  lemma {:induction false} BatchCounts(conv: Converters, jobs: seq<Json>)
    ensures |Successes(conv, jobs)| + |Failures(conv, jobs)| == |jobs|
    decreases |jobs|
  {
    if jobs != [] {
      BatchCounts(conv, jobs[..|jobs| - 1]);
    }
  }

  /** Records are parsed independently: the successes of a concatenation are the successes of
      each part, in order, so a failing record never affects the others. */
  lemma {:induction false} SuccessesAppend(conv: Converters, a: seq<Json>, b: seq<Json>)
    ensures Successes(conv, a + b) == Successes(conv, a) + Successes(conv, b)
    decreases |b|
  {
    if b == [] {
      assert a + b == a;
    } else {
      assert (a + b)[..|a + b| - 1] == a + b[..|b| - 1];
      assert (a + b)[|a + b| - 1] == b[|b| - 1];
      SuccessesAppend(conv, a, b[..|b| - 1]);
    }
  }

  /** A record is in the output exactly when some attempted record parses to it. */
  lemma {:induction false} SuccessMembers(conv: Converters, jobs: seq<Json>, rec: JobRecord)
    ensures rec in Successes(conv, jobs) <==> exists i :: 0 <= i < |jobs| && JobRecordOf(conv, jobs[i]) == Ok(rec)
    decreases |jobs|
  {
    if jobs != [] {
      var init := jobs[..|jobs| - 1];
      assert forall i :: 0 <= i < |init| ==> init[i] == jobs[i];
      SuccessMembers(conv, init, rec);
      if rec in Successes(conv, jobs) && rec !in Successes(conv, init) {
        assert JobRecordOf(conv, jobs[|jobs| - 1]) == Ok(rec);
      }
    }
  }

  /** When every attempted record parses, the output has one record per input, position by position. */
  lemma {:induction false} AllSucceed(conv: Converters, jobs: seq<Json>)
    requires forall i :: 0 <= i < |jobs| ==> JobRecordOf(conv, jobs[i]).Ok?
    ensures |Successes(conv, jobs)| == |jobs|
    ensures forall i :: 0 <= i < |jobs| ==> Successes(conv, jobs)[i] == JobRecordOf(conv, jobs[i]).value
    ensures Failures(conv, jobs) == []
    decreases |jobs|
  {
    if jobs != [] {
      var init := jobs[..|jobs| - 1];
      assert forall i :: 0 <= i < |init| ==> init[i] == jobs[i];
      AllSucceed(conv, init);
    }
  }

  /** A failure is reported under its record's position plus one, and with that record's error;
      every failing record is reported. */
  lemma {:induction false} FailureIndices(conv: Converters, jobs: seq<Json>)
    ensures forall f :: f in Failures(conv, jobs) ==>
              1 <= f.index <= |jobs| && JobRecordOf(conv, jobs[f.index - 1]) == Err(f.error)
    ensures forall i :: 0 <= i < |jobs| && JobRecordOf(conv, jobs[i]).Err? ==>
              FailureReport(i + 1, JobRecordOf(conv, jobs[i]).error) in Failures(conv, jobs)
    decreases |jobs|
  {
    if jobs != [] {
      var init := jobs[..|jobs| - 1];
      assert forall i :: 0 <= i < |init| ==> init[i] == jobs[i];
      FailureIndices(conv, init);
    }
  }

  /** Three records whose second is not a dict: two records out, in order, and one failure
      reported at index 2. */
  lemma SecondOfThreeFails(conv: Converters)
    ensures var jobs := [JObj(map["title" := JStr("a")]), JStr("broken"), JObj(map["title" := JStr("c")])];
      && Successes(conv, jobs) == [JobRecordOf(conv, jobs[0]).value, JobRecordOf(conv, jobs[2]).value]
      && Failures(conv, jobs) == [FailureReport(2, NotAnObject)]
  {
    var jobs := [JObj(map["title" := JStr("a")]), JStr("broken"), JObj(map["title" := JStr("c")])];
    var first, second := jobs[..1], jobs[..2];
    assert second[..1] == first && first[..0] == [] && jobs[..2] == second;
    assert JobRecordOf(conv, jobs[0]).Ok? && JobRecordOf(conv, jobs[1]) == Err(NotAnObject) && JobRecordOf(conv, jobs[2]).Ok?;
    assert Successes(conv, first) == [JobRecordOf(conv, jobs[0]).value];
    assert Successes(conv, second) == [JobRecordOf(conv, jobs[0]).value];
    assert Failures(conv, first) == [];
    assert Failures(conv, second) == [FailureReport(2, NotAnObject)];
  }

  /** `FirstListUnder` picks the first key with a list value, and fails only if there is none. */
  lemma {:induction false} FirstListUnderIsFirst(data: map<string, Json>, keys: seq<string>)
    ensures FirstListUnder(data, keys).Ok? <==> exists i :: 0 <= i < |keys| && keys[i] in data && data[keys[i]].JList?
    ensures FirstListUnder(data, keys).Ok? ==>
              exists i :: 0 <= i < |keys| && keys[i] in data && data[keys[i]].JList? &&
                          FirstListUnder(data, keys).value == data[keys[i]].items &&
                          forall j :: 0 <= j < i ==> !(keys[j] in data && data[keys[j]].JList?)
    decreases |keys|
  {
    if keys != [] {
      var rest := keys[1..];
      FirstListUnderIsFirst(data, rest);
      assert forall i :: 0 <= i < |rest| ==> rest[i] == keys[i + 1];
      if !(keys[0] in data && data[keys[0]].JList?) && FirstListUnder(data, keys).Ok? {
        var i :| 0 <= i < |rest| && rest[i] in data && data[rest[i]].JList? &&
                 FirstListUnder(data, rest).value == data[rest[i]].items &&
                 forall j :: 0 <= j < i ==> !(rest[j] in data && data[rest[j]].JList?);
        assert keys[i + 1] == rest[i];
        assert forall j :: 0 <= j < i + 1 ==> !(keys[j] in data && data[keys[j]].JList?) by {
          forall j | 0 <= j < i + 1 ensures !(keys[j] in data && data[keys[j]].JList?) {
            if j > 0 { assert keys[j] == rest[j - 1]; }
          }
        }
      }
    }
  }

  /** A top-level list is returned as it is; a dict gives the list under the first of `items`,
      `results`, `jobs` that holds one, and is an error when none does; anything else is an error. */
  lemma InputShapes(data: Json)
    ensures data.JList? ==> InputRecords(data) == Ok(data.items)
    ensures data.JObj? ==>
              (InputRecords(data).Ok? <==> exists k :: k in EnvelopeKeys && k in data.fields && data.fields[k].JList?)
    ensures data.JObj? && InputRecords(data).Ok? ==>
              exists i :: 0 <= i < |EnvelopeKeys| && EnvelopeKeys[i] in data.fields &&
                          data.fields[EnvelopeKeys[i]].JList? &&
                          InputRecords(data).value == data.fields[EnvelopeKeys[i]].items &&
                          forall j :: 0 <= j < i ==> !(EnvelopeKeys[j] in data.fields && data.fields[EnvelopeKeys[j]].JList?)
    ensures !data.JList? && !data.JObj? ==> InputRecords(data) == Err(UnsupportedStructure)
  {
    if data.JObj? {
      FirstListUnderIsFirst(data.fields, EnvelopeKeys);
    }
  }
}
