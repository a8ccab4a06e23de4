# Sentiment job record, job converter and news-analyser worker

A Dafny model of three pieces of the sentiment pipeline:

- the in-memory job record `AbstractJob` (with the `article` and `timeout` fields of its
  `AnalyserJob` subclass): an immutable id, a state that starts `INACTIVE`, a Java `int`
  attempt counter and two JSON slots, result and retry strategy;
- the generated `AnalyserJobConverter`, which writes a job's fields into a `JsonObject` in
  place (`toJson`) and reads a `JsonObject` back into a job through its setters (`fromJson`);
- the `NewsAnalyserWorker`'s request/reply logic: reading the `api` configuration in
  `start()`, building the analysis text and the one-document request body, the POST request
  with its headers, merging `documents[0]` of the response into the article under
  `"sentiment"`, and answering each bus message exactly once with a reply, a code 1 failure or
  a code 2 failure.

Java `null` is `Option.None`; an exception is a `Result.Failure` carrying a `JavaException`.
JSON is the `Json.Value` datatype, whose object case is a `map<string, Value>`; the mutable
`JsonObject` that `toJson` and `addSentimentResults` update in place is the class
`Json.JsonObject`. The typed getters (`getString`, `getInteger`, `getJsonObject`,
`getJsonArray`) follow Vert.x 3: with a default, the default applies only to an absent key; an
explicit JSON null reads as null; a value of another type throws `ClassCastException`.

Files: `wrappers.dfy` (Option, Result), `java_lang.dfy` (Java `int`/`long`, wrap-around,
`String.valueOf` of a length and its inverse), `json.dfy`, `abstract_job.dfy` (module `Jobs`),
`analyser_job_converter.dfy`, `news_analyser_worker.dfy`.

The model follows the code as written:

- there is no state-transition rule: `setState` accepts any state, including null;
- the worker makes one attempt, never touches a job's attempts and has no retry or timeout
  logic;
- every failure of the response pipeline gets code 1; 4xx and 5xx are not told apart;
- a message whose article lacks `name` or `description` is not rejected: `String.join`
  prints a null as `"null"`. In the model, only a missing body, a missing, null or
  non-object `article`, a non-string `name` or `description`, or a null `port` lead to code 2;
  what the HTTP client throws for a null host, path or header value is left out (see
  "## Left out").

`AbstractJob`'s `toJson()`, `encode()` and `encodePrettily()` (`JobJson`, `Encode`,
`EncodePrettily`) live in the converter module rather than in `Jobs`: `toJson()` is the
converter applied to a fresh `JsonObject`, and the converter already imports `Jobs`, so placing
them in `Jobs` would make the two modules import each other.

## Model

| member | source | states |
|---|---|---|
| `Jobs.Job.constructor` | sentiment-service/src/main/java/com/gofish/sentiment/sentimentservice/job/AbstractJob.java:17-26 | a new job has a fresh UUID id, state INACTIVE, 0 attempts, and empty JSON objects as result and retry strategy |
| `Jobs.Job.WithId` | sentiment-service/src/main/java/com/gofish/sentiment/sentimentservice/job/AbstractJob.java:17-30 | same initial state, with the supplied id (possibly null) |
| `Jobs.Job.GetResult` | sentiment-service/src/main/java/com/gofish/sentiment/sentimentservice/job/AbstractJob.java:38-41 | returns the stored result |
| `Jobs.Job.SetResult` | sentiment-service/src/main/java/com/gofish/sentiment/sentimentservice/job/AbstractJob.java:43-46 | replaces the result and leaves every other field unchanged |
| `Jobs.Job.GetJobId` | sentiment-service/src/main/java/com/gofish/sentiment/sentimentservice/job/AbstractJob.java:48-51 | returns the id; the id is a `const`, so no method can change it |
| `Jobs.Job.GetState` | sentiment-service/src/main/java/com/gofish/sentiment/sentimentservice/job/AbstractJob.java:53-56 | returns the stored state |
| `Jobs.Job.SetState` | sentiment-service/src/main/java/com/gofish/sentiment/sentimentservice/job/AbstractJob.java:58-61 | replaces the state from any state, without precondition, and nothing else |
| `Jobs.Job.GetAttempts` | sentiment-service/src/main/java/com/gofish/sentiment/sentimentservice/job/AbstractJob.java:63-66 | returns the attempt counter |
| `Jobs.Job.IncrementAttempts` | sentiment-service/src/main/java/com/gofish/sentiment/sentimentservice/job/AbstractJob.java:68-71 | attempts becomes old attempts + 1 with Java `int` wrap-around (exactly +1 below 2^31-1), every other field unchanged |
| `Jobs.Job.GetRetryStrategy` | sentiment-service/src/main/java/com/gofish/sentiment/sentimentservice/job/AbstractJob.java:73-76 | returns the stored retry strategy |
| `Jobs.Job.SetRetryStrategy` | sentiment-service/src/main/java/com/gofish/sentiment/sentimentservice/job/AbstractJob.java:83-86 | replaces the retry strategy and nothing else |
| `Jobs.Job.SetRetryStrategyOf` | sentiment-service/src/main/java/com/gofish/sentiment/sentimentservice/job/AbstractJob.java:78-81 | the `RetryStrategy` overload is the JSON overload applied to the strategy's JSON form |
| `JavaLang.Wrap32` | sentiment-service/src/main/java/com/gofish/sentiment/sentimentservice/job/AbstractJob.java:70 | `int` arithmetic: the result is in the 32-bit range, congruent to the exact value modulo 2^32, and equal to it when it fits |
| `Jobs.ValueOf` | sentiment-service/src/main/generated/com/gofish/sentiment/sentimentservice/job/AnalyserJobConverter.java:36 | `State.valueOf`: succeeds exactly with the constant whose name is the string; throws IllegalArgumentException when no constant has that name |
| `Jobs.ValueOfName` | sentiment-service/src/main/generated/com/gofish/sentiment/sentimentservice/job/AnalyserJobConverter.java:54-56 | the enum name written by `toJson` reads back as the same constant |
| `AnalyserJobConverter.Written` | sentiment-service/src/main/generated/com/gofish/sentiment/sentimentservice/job/AnalyserJobConverter.java:40-58 | `attempts` and `timeout` are always written; `article`, `jobId`, `jobResult`, `retryStrategy`, `state` are written exactly when non-null, the state as its name; a null field leaves its key as the target had it; every other key of the target is unchanged |
| `AnalyserJobConverter.ToJson` | sentiment-service/src/main/generated/com/gofish/sentiment/sentimentservice/job/AnalyserJobConverter.java:40-58 | the guarded in-place puts leave the target holding exactly `Written` of the job and its old entries |
| `AnalyserJobConverter.ToJsonKeys` | sentiment-service/src/main/generated/com/gofish/sentiment/sentimentservice/job/AnalyserJobConverter.java:40-58 | into an empty object, the keys are `attempts`, `timeout` and those of the non-null fields, no more |
| `AnalyserJobConverter.Apply` | sentiment-service/src/main/generated/com/gofish/sentiment/sentimentservice/job/AnalyserJobConverter.java:28-38 | result and retry strategy are replaced only by JSON objects; a state string naming a constant sets the state to that constant without throwing, one naming none throws IllegalArgumentException after result and retry strategy were set and leaves the state; a non-string state is ignored; id, attempts, article and timeout never change |
| `AnalyserJobConverter.FromJson` | sentiment-service/src/main/generated/com/gofish/sentiment/sentimentservice/job/AnalyserJobConverter.java:28-38 | the setter calls leave the job exactly as `Apply` says and report the same exception |
| `AnalyserJobConverter.RoundTrip` | sentiment-service/src/main/generated/com/gofish/sentiment/sentimentservice/job/AnalyserJobConverter.java:28-58 | reading a job's `toJson()` into another job copies the non-null state, result and retry strategy, keeps the rest of the target job, and never throws |
| `AnalyserJobConverter.RoundTripInto` | sentiment-service/src/main/generated/com/gofish/sentiment/sentimentservice/job/AnalyserJobConverter.java:28-58 | written into any target object, non-null state, result and retry strategy still read back unchanged |
| `AnalyserJobConverter.Encode` | sentiment-service/src/main/java/com/gofish/sentiment/sentimentservice/job/AbstractJob.java:88-91 | `encode()` is the compact text encoder applied to the job's `toJson()`, the converter's output into an empty object |
| `AnalyserJobConverter.EncodePrettily` | sentiment-service/src/main/java/com/gofish/sentiment/sentimentservice/job/AbstractJob.java:93-96 | `encodePrettily()` is the pretty text encoder applied to the same `toJson()` |
| `AnalyserJobConverter.EncodingsFollowToJson` | sentiment-service/src/main/java/com/gofish/sentiment/sentimentservice/job/AbstractJob.java:88-96 | `encode` and `encodePrettily` depend on `toJson()` alone: jobs with equal `toJson()` encode identically |
| `NewsAnalyserWorker.AfterStart` | news-analyser/src/main/java/com/gofish/sentiment/newsanalyser/NewsAnalyserWorker.java:49-55 | "Could not load analyser configuration" is thrown exactly when `api` is missing or null, and then nothing changes; every other failure is a `ClassCastException` from a wrong-typed read (a non-object `api` changes nothing); start succeeds exactly when the four reads do, with their values; each of key, base url and path holds its read value exactly when its own read and every earlier one succeeded, and its old value otherwise; a failed start never sets the port |
| `NewsAnalyserWorker.StartDefaults` | news-analyser/src/main/java/com/gofish/sentiment/newsanalyser/NewsAnalyserWorker.java:52-55 | absent keys default to `""` for key, base url and path, and to 443 for the port |
| `NewsAnalyserWorker.Worker.constructor` | news-analyser/src/main/java/com/gofish/sentiment/newsanalyser/NewsAnalyserWorker.java:37-39 | the default constructor leaves the api key, base url, path and port null until `start()` |
| `NewsAnalyserWorker.Worker.Start` | news-analyser/src/main/java/com/gofish/sentiment/newsanalyser/NewsAnalyserWorker.java:46-56 | assigns the fields in source order, leaving them as `AfterStart` says |
| `NewsAnalyserWorker.ArticleOf` | news-analyser/src/main/java/com/gofish/sentiment/newsanalyser/NewsAnalyserWorker.java:60 | the article is read exactly when the body holds an object under `article` |
| `NewsAnalyserWorker.AnalysisText` | news-analyser/src/main/java/com/gofish/sentiment/newsanalyser/NewsAnalyserWorker.java:61 | succeeds exactly when name and description are strings, null or missing; the text is the rendered name, then ". ", then the rendered description |
| `NewsAnalyserWorker.RequestData` | news-analyser/src/main/java/com/gofish/sentiment/newsanalyser/NewsAnalyserWorker.java:62-66 | the body has only `documents`, an array of exactly one document with language "en", the fresh id and the analysis text |
| `NewsAnalyserWorker.Outbound` | news-analyser/src/main/java/com/gofish/sentiment/newsanalyser/NewsAnalyserWorker.java:68-73 | a null port throws; otherwise a POST to (port, base url, path) whose body is the encoded request data, with a JSON UTF-8 content type, the subscription key equal to the api key, and a Content-Length whose digits read back as the body's length |
| `JavaLang.Decimal` | news-analyser/src/main/java/com/gofish/sentiment/newsanalyser/NewsAnalyserWorker.java:72 | `String.valueOf` of a length is a non-empty digit string with no leading zero |
| `JavaLang.ParseDecimalOfDecimal` | news-analyser/src/main/java/com/gofish/sentiment/newsanalyser/NewsAnalyserWorker.java:72 | the Content-Length text denotes exactly the length it was made from |
| `NewsAnalyserWorker.SentimentOf` | news-analyser/src/main/java/com/gofish/sentiment/newsanalyser/NewsAnalyserWorker.java:101-102 | succeeds exactly when `documents` is a non-empty array whose first element is an object or null, and then yields that element; a missing or null `documents` throws `NullPointerException`, an empty one `IndexOutOfBoundsException`, a non-array one or a non-object first element `ClassCastException` |
| `NewsAnalyserWorker.Worker.AddSentimentResults` | news-analyser/src/main/java/com/gofish/sentiment/newsanalyser/NewsAnalyserWorker.java:101-105 | puts `documents[0]` under "sentiment" in place; when reading it throws, the article is untouched |
| `NewsAnalyserWorker.Processed` | news-analyser/src/main/java/com/gofish/sentiment/newsanalyser/NewsAnalyserWorker.java:58-97 | a request is sent exactly when the inbound body is readable and the port is set; otherwise the reply is code 2 "Invalid Request"; after sending, a failed exchange fails with code 1 and its message, a `documents[0]` that cannot be read fails with code 1 and that exception, and a readable one gives the reply of the article with "sentiment" set to `documents[0]`; every failure has code 1 or 2 |
| `NewsAnalyserWorker.Worker.Handle` | news-analyser/src/main/java/com/gofish/sentiment/newsanalyser/NewsAnalyserWorker.java:58-97 | the handler body sends the request and gives the one reply `Processed` describes |
| `NewsAnalyserWorker.ReplyKeepsArticle` | news-analyser/src/main/java/com/gofish/sentiment/newsanalyser/NewsAnalyserWorker.java:80-104 | once the request is sent and `documents[0]` can be read, the reply is a success holding every key of the inbound article with its value, plus "sentiment" |
| `NewsAnalyserWorker.MissingArticleIsInvalid` | news-analyser/src/main/java/com/gofish/sentiment/newsanalyser/NewsAnalyserWorker.java:59-96 | a body without an object under `article` sends nothing and fails with code 2 "Invalid Request" |

## Left out

- The HTTP client, its TLS and pipelining options, the second worker constructor that takes a client, event-bus consumer registration, `stop()` and unregistering, and logging: I/O and asynchronous plumbing.
- The RxJava pipeline and the ordering of `request.write` and `request.end`: the exchange is an input (`Exchange`), either the response JSON or a failure with its message. `ResponseHandler` is not part of this model; what it turns into a failure is whatever arrives as `Errored`.
- A response pipeline that delivers a null response object: the model's `Responded` always carries an object.
- UUID generation: the job id and the document id are parameters.
- JSON text encoding (`encode`, `encodePrettily`, `Json.encodePrettily`, `Buffer.buffer`): library code, passed in as functions.
- Insertion order of `JsonObject` keys: objects are maps.
- Aliasing: setters and `toJson` store references to caller's `JsonObject`s, so later changes to those objects show through; the model stores values. `fromJson`'s `copy()` is exact under value semantics.
- JSON numbers other than integers, and the text of JVM exception messages (a failure carries the exception kind instead).
- What the HTTP client does with a null host, path or header value when a configuration key holds an explicit JSON null: the model sends the request with the null values.
- `AnalyserJob.java`, `Job.java` and `RetryStrategy.java` are not part of this model: the state constants are INACTIVE, ACTIVE, COMPLETED and FAILED; `article` and `timeout` are fixed at construction; a job's `toJson()` is taken to be the converter applied to a new, empty `JsonObject`.
- Retry loops, backoff, timeout enforcement, terminal states and attempt ceilings: the code has none of them.
