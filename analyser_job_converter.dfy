/** The generated field-by-field converter between an `AnalyserJob` and a `JsonObject`, and the
    job's `toJson`/`encode`/`encodePrettily`, which delegate to it. */
module AnalyserJobConverter {
  import opened Wrappers
  import opened Json
  import opened JavaLang
  import opened Jobs

  /** Every key `toJson` may write. */
  const JobKeys: set<string> := {"article", "attempts", "jobId", "jobResult", "retryStrategy", "state", "timeout"}

  /** `a` and `b` agree on `key`: both lack it, or both hold the same value under it. */
  predicate SameAt(a: Obj, b: Obj, key: string) {
    (key in a <==> key in b) && (key in a ==> a[key] == b[key])
  }

  /** Keys of the nullable fields that are non-null in `j`. */
  function PresentKeys(j: JobView): set<string> {
    (if j.article.Some? then {"article"} else {})
    + (if j.jobId.Some? then {"jobId"} else {})
    + (if j.result.Some? then {"jobResult"} else {})
    + (if j.retryStrategy.Some? then {"retryStrategy"} else {})
    + (if j.state.Some? then {"state"} else {})
  }

  /** The entries of `target` after `toJson(job, target)`. */
  function Written(j: JobView, target: Obj): (r: Obj)
    ensures "attempts" in r && r["attempts"] == Num(j.attempts as int)
    ensures "timeout" in r && r["timeout"] == Num(j.timeout as int)
    ensures j.article.Some? ==> "article" in r && r["article"] == Object(j.article.value)
    ensures j.jobId.Some? ==> "jobId" in r && r["jobId"] == Str(j.jobId.value)
    ensures j.result.Some? ==> "jobResult" in r && r["jobResult"] == Object(j.result.value)
    ensures j.retryStrategy.Some? ==> "retryStrategy" in r && r["retryStrategy"] == Object(j.retryStrategy.value)
    ensures j.state.Some? ==> "state" in r && r["state"] == Str(Name(j.state.value))
    ensures j.article.None? ==> SameAt(target, r, "article")
    ensures j.jobId.None? ==> SameAt(target, r, "jobId")
    ensures j.result.None? ==> SameAt(target, r, "jobResult")
    ensures j.retryStrategy.None? ==> SameAt(target, r, "retryStrategy")
    ensures j.state.None? ==> SameAt(target, r, "state")
    ensures forall k :: k !in JobKeys ==> SameAt(target, r, k)
  {
    var m1 := if j.article.Some? then target["article" := Object(j.article.value)] else target;
    var m2 := m1["attempts" := Num(j.attempts as int)];
    var m3 := if j.jobId.Some? then m2["jobId" := Str(j.jobId.value)] else m2;
    var m4 := if j.result.Some? then m3["jobResult" := Object(j.result.value)] else m3;
    var m5 := if j.retryStrategy.Some? then m4["retryStrategy" := Object(j.retryStrategy.value)] else m4;
    var m6 := if j.state.Some? then m5["state" := Str(Name(j.state.value))] else m5;
    m6["timeout" := Num(j.timeout as int)]
  }

  /** `toJson(obj, json)`: puts the job's fields into `json` in place. */
  method ToJson(obj: Job, json: JsonObject)
    modifies json
    ensures json.entries == Written(obj.View(), old(json.entries))
  {
    if obj.article.Some? {
      json.Put("article", Object(obj.article.value));
    }
    var attempts := obj.GetAttempts();
    json.Put("attempts", Num(attempts as int));
    var jobId := obj.GetJobId();
    if jobId.Some? {
      json.Put("jobId", Str(jobId.value));
    }
    var result := obj.GetResult();
    if result.Some? {
      json.Put("jobResult", Object(result.value));
    }
    var strategy := obj.GetRetryStrategy();
    if strategy.Some? {
      json.Put("retryStrategy", Object(strategy.value));
    }
    var state := obj.GetState();
    if state.Some? {
      json.Put("state", Str(Name(state.value)));
    }
    json.Put("timeout", Num(obj.timeout as int));
  }

  /** A job after `fromJson`, and the exception it ended with, if any. */
  datatype Applied = Applied(job: JobView, thrown: Option<JavaException>)

  /** What `fromJson(json, obj)` does to a job whose fields were `j`. `valueOf` runs last, so
      when it throws the result and retry strategy have already been replaced. */
  function Apply(json: Obj, j: JobView): (r: Applied)
    ensures r.job.jobId == j.jobId && r.job.attempts == j.attempts
    ensures r.job.article == j.article && r.job.timeout == j.timeout
    ensures "jobResult" in json && json["jobResult"].Object? ==> r.job.result == Some(json["jobResult"].fields)
    ensures !("jobResult" in json && json["jobResult"].Object?) ==> r.job.result == j.result
    ensures "retryStrategy" in json && json["retryStrategy"].Object? ==> r.job.retryStrategy == Some(json["retryStrategy"].fields)
    ensures !("retryStrategy" in json && json["retryStrategy"].Object?) ==> r.job.retryStrategy == j.retryStrategy
    ensures !("state" in json && json["state"].Str?) ==> r == Applied(r.job, None) && r.job.state == j.state
    ensures r.thrown.Some? <==> "state" in json && json["state"].Str? && forall s: State :: Name(s) != json["state"].s
    ensures r.thrown.Some? ==> r.thrown.value == IllegalArgument(json["state"].s) && r.job.state == j.state
    ensures "state" in json && json["state"].Str? && ValueOf(json["state"].s).Success? ==>
      r.thrown.None? && r.job.state == Some(ValueOf(json["state"].s).value)
    ensures r.job.state != j.state ==> "state" in json && r.job.state.Some? && json["state"] == Str(Name(r.job.state.value))
  {
    var withResult := if ObjectAt(json, "jobResult").Some? then j.(result := ObjectAt(json, "jobResult")) else j;
    var withStrategy :=
      if ObjectAt(json, "retryStrategy").Some? then withResult.(retryStrategy := ObjectAt(json, "retryStrategy"))
      else withResult;
    match StringAt(json, "state")
    case None => Applied(withStrategy, None)
    case Some(name) =>
      match ValueOf(name)
      case Success(s) => Applied(withStrategy.(state := Some(s)), None)
      case Failure(e) => Applied(withStrategy, Some(e))
  }

  /** `fromJson(json, obj)`: updates `obj` through its setters; `json` is only read, and the
      objects stored are copies of its nested ones. */
  method FromJson(json: JsonObject, obj: Job) returns (thrown: Option<JavaException>)
    modifies obj
    ensures Applied(obj.View(), thrown) == Apply(json.entries, old(obj.View()))
  {
    var result := ObjectAt(json.entries, "jobResult");
    if result.Some? {
      obj.SetResult(result);
    }
    var strategy := ObjectAt(json.entries, "retryStrategy");
    if strategy.Some? {
      obj.SetRetryStrategy(strategy);
    }
    thrown := None;
    var name := StringAt(json.entries, "state");
    if name.Some? {
      var s := ValueOf(name.value);
      if s.Failure? {
        thrown := Some(s.error);
        return;
      }
      obj.SetState(Some(s.value));
    }
  }

  /** A job's `toJson()`: the converter applied to a new, empty `JsonObject`. */
  function JobJson(job: Job): Obj
    reads job
  {
    Written(job.View(), map[])
  }

  /** `toJson()` holds `attempts` and `timeout` and exactly the keys of the non-null fields. */
  lemma ToJsonKeys(j: JobView)
    ensures Written(j, map[]).Keys == {"attempts", "timeout"} + PresentKeys(j)
  {
  }

  /** Reading back a job's own `toJson()` copies its non-null state, result and retry strategy,
      keeps every other field of the target, and never throws. */
  lemma RoundTrip(j: JobView, k: JobView)
    ensures Apply(Written(j, map[]), k) == Applied(
      k.(state := if j.state.Some? then j.state else k.state,
         result := if j.result.Some? then j.result else k.result,
         retryStrategy := if j.retryStrategy.Some? then j.retryStrategy else k.retryStrategy),
      None)
  {
  }

  /** Into any target: whatever `toJson` wrote for a non-null field is what `fromJson` reads back. */
  lemma RoundTripInto(j: JobView, target: Obj, k: JobView)
    ensures var r := Apply(Written(j, target), k);
      && (j.state.Some? ==> r.thrown.None? && r.job.state == j.state)
      && (j.result.Some? ==> r.job.result == j.result)
      && (j.retryStrategy.Some? ==> r.job.retryStrategy == j.retryStrategy)
  {
  }

  /** `encode()`: the compact text of `toJson()`; the JSON text encoder is library code and is
      passed in. */
  function Encode(job: Job, compact: Obj -> string): (text: string)
    reads job
    ensures text == compact(Written(job.View(), map[]))
  {
    compact(JobJson(job))
  }

  /** `encodePrettily()`: the indented text of `toJson()`, by the library's pretty encoder. */
  function EncodePrettily(job: Job, pretty: Obj -> string): (text: string)
    reads job
    ensures text == pretty(Written(job.View(), map[]))
  {
    pretty(JobJson(job))
  }

  /** Both encodings depend on `toJson()` alone. */
  lemma EncodingsFollowToJson(a: Job, b: Job, compact: Obj -> string, pretty: Obj -> string)
    requires JobJson(a) == JobJson(b)
    ensures Encode(a, compact) == Encode(b, compact)
    ensures EncodePrettily(a, pretty) == EncodePrettily(b, pretty)
  {
  }
}
