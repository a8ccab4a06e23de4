/** The in-memory job record: `AbstractJob` with the two fields its `AnalyserJob` subclass
    adds (`article`, `timeout`). */
module Jobs {
  import opened Wrappers
  import opened Json
  import opened JavaLang

  /** `Job.State`. */
  datatype State = INACTIVE | ACTIVE | COMPLETED | FAILED

  /** `Enum.name()`. */
  function Name(s: State): string {
    match s
    case INACTIVE => "INACTIVE"
    case ACTIVE => "ACTIVE"
    case COMPLETED => "COMPLETED"
    case FAILED => "FAILED"
  }

  /** `State.valueOf(name)`: the constant with exactly that name, otherwise
      `IllegalArgumentException`. */
  function ValueOf(name: string): (r: Result<State, JavaException>)
    ensures r.Success? ==> Name(r.value) == name
    ensures r.Failure? ==> r.error == IllegalArgument(name) && forall s: State :: Name(s) != name
  {
    if name == "INACTIVE" then Success(INACTIVE)
    else if name == "ACTIVE" then Success(ACTIVE)
    else if name == "COMPLETED" then Success(COMPLETED)
    else if name == "FAILED" then Success(FAILED)
    else Failure(IllegalArgument(name))
  }

  /** Every constant's name reads back as that constant, so no two share a name. */
  lemma ValueOfName(s: State)
    ensures ValueOf(Name(s)) == Success(s)
  {
  }

  /** The value of every field of a job at one moment; `None` is a Java null. */
  datatype JobView = JobView(
    jobId: Option<string>,
    state: Option<State>,
    attempts: int32,
    result: Option<Obj>,
    retryStrategy: Option<Obj>,
    article: Option<Obj>,
    timeout: int64)

  /** What both constructors leave behind, apart from the id and the subclass's fields. */
  predicate IsNew(v: JobView) {
    v.state == Some(INACTIVE) && v.attempts == 0 && v.result == Some(map[]) && v.retryStrategy == Some(map[])
  }

  class Job {
    const jobId: Option<string>
    var state: Option<State>
    var attempts: int32
    var jobResult: Option<Obj>
    var retryStrategy: Option<Obj>
    /** `AnalyserJob`'s own fields; nothing in the modelled code writes them after construction. */
    const article: Option<Obj>
    const timeout: int64

    function View(): JobView
      reads this
    {
      JobView(jobId, state, attempts, jobResult, retryStrategy, article, timeout)
    }

    /** `AbstractJob()`: the id is a freshly generated UUID string, passed in here. */
    constructor (uuid: string, article: Option<Obj>, timeout: int64)
      ensures IsNew(View())
      ensures jobId == Some(uuid) && this.article == article && this.timeout == timeout
    {
      jobId := Some(uuid);
      state := Some(INACTIVE);
      attempts := 0;
      jobResult := Some(map[]);
      retryStrategy := Some(map[]);
      this.article := article;
      this.timeout := timeout;
    }

    /** `AbstractJob(String jobId)`: the id is the one supplied, which may be null. */
    constructor WithId(jobId: Option<string>, article: Option<Obj>, timeout: int64)
      ensures IsNew(View())
      ensures this.jobId == jobId && this.article == article && this.timeout == timeout
    {
      this.jobId := jobId;
      state := Some(INACTIVE);
      attempts := 0;
      jobResult := Some(map[]);
      retryStrategy := Some(map[]);
      this.article := article;
      this.timeout := timeout;
    }

    method GetResult() returns (r: Option<Obj>)
      ensures r == jobResult
    {
      r := jobResult;
    }

    /** Replaces the result and nothing else. */
    method SetResult(jobResult: Option<Obj>)
      modifies this
      ensures View() == old(View()).(result := jobResult)
    {
      this.jobResult := jobResult;
    }

    method GetJobId() returns (id: Option<string>)
      ensures id == jobId
    {
      id := jobId;
    }

    method GetState() returns (s: Option<State>)
      ensures s == state
    {
      s := state;
    }

    /** Replaces the state and nothing else; any state may follow any other. */
    method SetState(state: Option<State>)
      modifies this
      ensures View() == old(View()).(state := state)
    {
      this.state := state;
    }

    method GetAttempts() returns (n: int32)
      ensures n == attempts
    {
      n := attempts;
    }

    /** `attempts++` on a Java `int`: one more, except that the largest `int` wraps around. */
    method IncrementAttempts()
      modifies this
      ensures View() == old(View()).(attempts := Wrap32(old(attempts) as int + 1))
      ensures old(attempts) < Int32Max ==> attempts == old(attempts) + 1
    {
      attempts := Wrap32(attempts as int + 1);
    }

    method GetRetryStrategy() returns (r: Option<Obj>)
      ensures r == retryStrategy
    {
      r := retryStrategy;
    }

    /** Replaces the retry strategy and nothing else. */
    method SetRetryStrategy(retryStrategy: Option<Obj>)
      modifies this
      ensures View() == old(View()).(retryStrategy := retryStrategy)
    {
      this.retryStrategy := retryStrategy;
    }

    /** The `RetryStrategy` overload: the strategy's JSON form (`Json.encodePrettily` read back
        by `new JsonObject(text)`, given here as `asJson`) goes through the JSON overload. */
    method SetRetryStrategyOf<S>(strategy: S, asJson: S -> Obj)
      modifies this
      ensures View() == old(View()).(retryStrategy := Some(asJson(strategy)))
    {
      SetRetryStrategy(Some(asJson(strategy)));
    }
  }
}
