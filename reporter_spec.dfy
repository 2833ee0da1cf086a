/**
 * The reporter's behavioural examples, one method per example: each
 * builds a fresh controller, drives it through the same configuration
 * steps, initialisations and exception events as the example, and
 * returns what the example inspects. The one exception is
 * `TrackerUsesDispatchEnvironment`, which changes the environment after
 * initialisation to show that the environment is read at dispatch time.
 * The tracker, NewRelic and email-notification examples state the whole
 * backend trace: at most one call per initialisation (none for the sink or
 * email) and per reported event (none for the sink).
 */
module ReporterExamples {
  import opened Wrappers
  import opened Environment
  import opened Reporter
  import EmailFormat

  /** With the sink notifier, initialisation marks the sink initialised. */
  method SinkIsInitialized(c: Config, ex: Exception, now: string) returns (initialized: bool)
    ensures initialized
  {
    var r := new Controller(c);
    r.SetNotifier(DummyKind);
    r.Init();
    r.HandleException(ex, now);
    initialized := r.sink.initialized;
  }

  /** With the sink notifier, a reported exception is the sink's last exception. */
  method SinkRecordsException(c: Config, ex: Exception, now: string) returns (notified: Option<Exception>)
    requires ShouldReport(c.environment, c.excluded)
    ensures notified == Some(ex)
  {
    var r := new Controller(c);
    r.SetNotifier(DummyKind);
    r.Init();
    r.HandleException(ex, now);
    notified := r.sink.notified;
  }

  /** Airbrake initialisation builds the client from the API key and the URL. */
  method TrackerInitialization(c: Config) returns (calls: seq<Call>)
    ensures calls == [TrackerNew(c.apiKey, c.url)]
  {
    var r := new Controller(c);
    r.SetNotifier(AirbrakeKind);
    r.Init();
    calls := r.trace;
  }

  /**
   * Airbrake receives the original exception, on the client built at
   * initialisation, with the environment under `framework_env`: the
   * default `:production`, or `:foo` once that is set.
   */
  method TrackerNotification(c: Config, env: Env, ex: Exception, now: string) returns (calls: seq<Call>)
    requires ShouldReport(env, c.excluded)
    ensures calls == [TrackerNew(c.apiKey, c.url),
                      TrackerPost(TrackingClient(c.apiKey, c.url), ex, map[FrameworkEnv := env])]
  {
    var r := new Controller(c);
    r.SetNotifier(AirbrakeKind);
    r.SetEnvironment(env);
    r.Init();
    r.HandleException(ex, now);
    calls := r.trace;
  }

  /** The environment that counts is the one current when the exception arrives,
      not the one at initialisation. */
  method TrackerUsesDispatchEnvironment(c: Config, later: Env, ex: Exception, now: string)
    returns (calls: seq<Call>)
    requires ShouldReport(later, c.excluded)
    ensures calls == [TrackerNew(c.apiKey, c.url),
                      TrackerPost(TrackingClient(c.apiKey, c.url), ex, map[FrameworkEnv := later])]
  {
    var r := new Controller(c);
    r.SetNotifier(AirbrakeKind);
    r.Init();
    r.SetEnvironment(later);
    r.HandleException(ex, now);
    calls := r.trace;
  }

  /** In the excluded development environment nothing is posted, even after
      initialising twice. */
  method TrackerSilentWhenExcluded(c: Config, ex: Exception, now: string) returns (calls: seq<Call>)
    requires Development in c.excluded
    ensures forall k :: 0 <= k < |calls| ==> !calls[k].TrackerPost?
    ensures calls == [TrackerNew(c.apiKey, c.url), TrackerNew(c.apiKey, c.url)]
  {
    var r := new Controller(c);
    r.SetNotifier(AirbrakeKind);
    r.SetEnvironment(Development);
    r.Init();
    r.Init();
    r.HandleException(ex, now);
    calls := r.trace;
  }

  /** NewRelic initialisation starts the agent with the NewRelic settings as they are. */
  method ApmInitialization(c: Config) returns (calls: seq<Call>)
    ensures calls == [ApmManualStart(c.newrelic)]
  {
    var r := new Controller(c);
    r.SetNotifier(NewrelicKind);
    r.Init();
    calls := r.trace;
  }

  /** NewRelic is started once and then told of the original exception object. */
  method ApmNotification(c: Config, ex: Exception, now: string) returns (calls: seq<Call>)
    requires ShouldReport(c.environment, c.excluded)
    ensures calls == [ApmManualStart(c.newrelic), ApmNoticeError(ex)]
  {
    var r := new Controller(c);
    r.SetNotifier(NewrelicKind);
    r.Init();
    r.HandleException(ex, now);
    calls := r.trace;
  }

  /** Email initialisation makes the configured email settings Pony's options. */
  method EmailInitialization(c: Config, options: Settings) returns (mailOptions: Option<Settings>)
    ensures mailOptions == Some(options)
  {
    var r := new Controller(c);
    r.SetNotifier(EmailKind);
    r.SetEmailOptions(options);
    r.Init();
    mailOptions := r.mailOptions;
  }

  /** The mail sent for an `ExceptionClass` with the given message and the
      two-frame backtrace, reported at time `now`. */
  method EmailNotification(c: Config, options: Settings, id: nat, message: string, now: string)
    returns (calls: seq<Call>)
    requires ShouldReport(c.environment, c.excluded)
    ensures calls == [MailSend("[" + c.appName + "] Exception: ExceptionClass (" + message + ")",
                     c.appName + " reported an exception at " + now
                     + "\n\nExceptionClass (" + message + "):\n" + "1: foo\n2: bar" + "\n\n")]
  {
    var ex := Exception(id, "ExceptionClass", message, ["1: foo", "2: bar"]);
    var r := new Controller(c);
    r.SetNotifier(EmailKind);
    r.SetEmailOptions(options);
    r.Init();
    r.HandleException(ex, now);
    calls := r.trace;
    EmailFormat.TestSubject(c.appName, message);
    EmailFormat.TestBody(c.appName, now, message);
  }
}
