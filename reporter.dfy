/**
 * The reporter's dispatch core. The configuration selects one of four
 * notifiers: the in-process sink, the Airbrake tracking service (through
 * its Toadhopper client), the NewRelic agent, or email (through Pony).
 * `Init` is the plugin initialisation hook. It makes the selected notifier
 * the active one and sets up its backend. `HandleException` is the
 * subscriber to the `:exception` event. It applies the environment filter
 * and passes the exception to the active notifier.
 *
 * The backends are external libraries. Every call the core makes into
 * them is appended to the controller's `trace`. Pony's process-wide
 * options are the field `mailOptions`.
 */
module Reporter {
  import opened Wrappers
  import opened Environment
  import EmailFormat

  /** An exception raised by the application. `id` stands for the object's identity. */
  datatype Exception = Exception(id: nat, typeName: string, message: string, backtrace: seq<string>)

  /** The notifier classes the configuration can name. */
  datatype NotifierKind = DummyKind | AirbrakeKind | NewrelicKind | EmailKind

  type Settings = map<string, string>

  /** The reporter configuration, together with the platform environment. */
  datatype Config = Config(
    notifier: NotifierKind,
    environment: Env,
    excluded: set<Env>,
    appName: string,
    apiKey: string,
    url: string,
    newrelic: Settings,
    email: Settings)

  /** A Toadhopper client: the API key and the `notify_host` it was built with. */
  datatype TrackingClient = TrackingClient(apiKey: string, notifyHost: string)

  /** The active notifier, with whatever it built at initialisation. */
  datatype Notifier = Sink | Tracking(client: TrackingClient) | Apm | Mailer

  /** The context key under which Airbrake receives the environment. */
  const FrameworkEnv: string := "framework_env"

  /** A call into a backend library. */
  datatype Call =
    | TrackerNew(apiKey: string, notifyHost: string)                           // Toadhopper.new
    | TrackerPost(client: TrackingClient, ex: Exception, context: map<string, string>)  // post!
    | ApmManualStart(settings: Settings)                                       // NewRelic::Agent.manual_start
    | ApmNoticeError(ex: Exception)                                            // NewRelic::Agent.notice_error
    | MailSend(subject: string, body: string)                                  // Pony.mail

  /** What one exception event turns into. */
  datatype Delivery = Dropped | ToSink(ex: Exception) | Outbound(call: Call)

  function KindOf(n: Notifier): NotifierKind
  {
    match n
    case Sink => DummyKind
    case Tracking(_) => AirbrakeKind
    case Apm => NewrelicKind
    case Mailer => EmailKind
  }

  /** The notifier a call is made on, if it is a notification at all. */
  function Recipient(call: Call): Option<Notifier>
  {
    match call
    case TrackerPost(client, _, _) => Some(Tracking(client))
    case ApmNoticeError(_) => Some(Apm)
    case MailSend(_, _) => Some(Mailer)
    case _ => None
  }

  /** The notifier a delivery reaches. */
  function Target(d: Delivery): Option<Notifier>
  {
    match d
    case Dropped => None
    case ToSink(_) => Some(Sink)
    case Outbound(call) => Recipient(call)
  }

  /** The exception object a delivery hands over unchanged, if it hands one over. */
  function Carried(d: Delivery): Option<Exception>
  {
    match d
    case ToSink(ex) => Some(ex)
    case Outbound(TrackerPost(_, ex, _)) => Some(ex)
    case Outbound(ApmNoticeError(ex)) => Some(ex)
    case _ => None
  }

  /** The notifier `Init` makes active: the configured one; Airbrake's client is
      built from the configured API key and URL. */
  function MakeNotifier(c: Config): (n: Notifier)
    ensures KindOf(n) == c.notifier
    ensures n.Tracking? ==> n.client == TrackingClient(c.apiKey, c.url)
  {
    match c.notifier
    case DummyKind => Sink
    case AirbrakeKind => Tracking(TrackingClient(c.apiKey, c.url))
    case NewrelicKind => Apm
    case EmailKind => Mailer
  }

  /** The backend calls `Init` makes for configuration `c`. */
  function InitCalls(c: Config): (calls: seq<Call>)
    ensures |calls| <= 1
    ensures c.notifier == AirbrakeKind <==> calls == [TrackerNew(c.apiKey, c.url)]
    ensures c.notifier == NewrelicKind <==> calls == [ApmManualStart(c.newrelic)]
    // the sink does no external I/O, and email only sets Pony's options
    ensures calls == [] <==> c.notifier == DummyKind || c.notifier == EmailKind
    ensures forall k :: 0 <= k < |calls| ==> Recipient(calls[k]) == None
  {
    match c.notifier
    case AirbrakeKind => [TrackerNew(c.apiKey, c.url)]
    case NewrelicKind => [ApmManualStart(c.newrelic)]
    case _ => []
  }

  /**
   * What the exception subscriber does with `ex` under configuration `c`
   * when `active` is the notifier chosen at the last initialisation
   * (`None`: never initialised, so nothing is subscribed) and `now` is the
   * wall-clock time as text.
   */
  function Dispatch(c: Config, active: Option<Notifier>, ex: Exception, now: string): (d: Delivery)
    // dropped exactly when there is no subscriber or the environment is excluded
    ensures d == Dropped <==> active == None || !ShouldReport(c.environment, c.excluded)
    // otherwise it reaches the active notifier and nothing else
    ensures d != Dropped ==> Target(d) == active
    // the sink, Airbrake and NewRelic receive the original exception
    ensures d != Dropped && active != Some(Mailer) ==> Carried(d) == Some(ex)
    // Airbrake's context carries the environment current at dispatch time
    ensures d.Outbound? && d.call.TrackerPost? ==>
      FrameworkEnv in d.call.context && d.call.context[FrameworkEnv] == c.environment
    // the mail is the formatted subject and body
    ensures d.Outbound? && d.call.MailSend? ==>
      d.call.subject == EmailFormat.Subject(c.appName, ex.typeName, ex.message) &&
      d.call.body == EmailFormat.Body(c.appName, now, ex.typeName, ex.message, ex.backtrace)
  {
    if active.None? || !ShouldReport(c.environment, c.excluded) then Dropped
    else
      match active.value
      case Sink => ToSink(ex)
      case Tracking(client) => Outbound(TrackerPost(client, ex, map[FrameworkEnv := c.environment]))
      case Apm => Outbound(ApmNoticeError(ex))
      case Mailer =>
        Outbound(MailSend(EmailFormat.Subject(c.appName, ex.typeName, ex.message),
                          EmailFormat.Body(c.appName, now, ex.typeName, ex.message, ex.backtrace)))
  }

  /** The calls a dispatch adds to the trace. */
  function CallsOf(d: Delivery): (calls: seq<Call>)
    ensures |calls| <= 1
    ensures calls == [] <==> !d.Outbound?
  {
    if d.Outbound? then [d.call] else []
  }

  /** An exception passing the filter always reaches the backend, whatever it is. */
  lemma ReportedIsDelivered(c: Config, ex: Exception, now: string)
    requires ShouldReport(c.environment, c.excluded)
    ensures var n := MakeNotifier(c);
      var d := Dispatch(c, Some(n), ex, now);
      Target(d) == Some(n) && (n != Sink <==> |CallsOf(d)| == 1)
  {
  }

  /** In an excluded environment no backend call is made, whatever was initialised. */
  lemma ExcludedMakesNoCall(c: Config, active: Option<Notifier>, ex: Exception, now: string)
    requires !ShouldReport(c.environment, c.excluded)
    ensures CallsOf(Dispatch(c, active, ex, now)) == []
  {
  }

  /** The reference backend: it records that it was initialised and the last exception. */
  class DummyNotifier {
    var initialized: bool
    var notified: Option<Exception>

    constructor ()
      ensures !initialized && notified == None
    {
      initialized := false;
      notified := None;
    }

    method Init()
      modifies this
      ensures initialized
      ensures notified == old(notified)
    {
      initialized := true;
    }

    method Notify(ex: Exception)
      modifies this
      ensures notified == Some(ex)
      ensures initialized == old(initialized)
    {
      notified := Some(ex);
    }
  }

  /** The reporter plugin: its configuration, the active notifier and the backends' state. */
  class Controller {
    var config: Config
    var active: Option<Notifier>
    var mailOptions: Option<Settings>
    var trace: seq<Call>
    const sink: DummyNotifier

    constructor (c: Config)
      ensures config == c && active == None && mailOptions == None && trace == []
      ensures fresh(sink) && !sink.initialized && sink.notified == None
    {
      config := c;
      active := None;
      mailOptions := None;
      trace := [];
      sink := new DummyNotifier();
    }

    /** `config.notifier = kind` */
    method SetNotifier(kind: NotifierKind)
      modifies this`config
      ensures config == old(config).(notifier := kind)
    {
      config := config.(notifier := kind);
    }

    /** `Adhearsion.config.platform.environment = env` */
    method SetEnvironment(env: Env)
      modifies this`config
      ensures config == old(config).(environment := env)
    {
      config := config.(environment := env);
    }

    /** `config.email = options` */
    method SetEmailOptions(options: Settings)
      modifies this`config
      ensures config == old(config).(email := options)
    {
      config := config.(email := options);
    }

    /**
     * The plugin initialisation hook. The configured notifier becomes the
     * active one and sets up its backend: the sink marks itself
     * initialised, Airbrake builds its client, NewRelic starts its agent
     * with the NewRelic settings, and email stores the email settings as
     * Pony's options. Calling it again re-derives everything from the
     * configuration; the subscription is replaced, not added.
     */
    method Init()
      modifies this, sink
      ensures config == old(config)
      ensures active == Some(MakeNotifier(config))
      ensures trace == old(trace) + InitCalls(config)
      ensures mailOptions == if config.notifier == EmailKind then Some(config.email) else old(mailOptions)
      ensures sink.initialized == (old(sink.initialized) || config.notifier == DummyKind)
      ensures sink.notified == old(sink.notified)
    {
      active := Some(MakeNotifier(config));
      trace := trace + InitCalls(config);
      match config.notifier
      case DummyKind => sink.Init();
      case EmailKind => mailOptions := Some(config.email);
      case _ =>
    }

    /**
     * The `:exception` event subscriber. The event is dropped when nothing
     * was initialised or the current environment is excluded; otherwise
     * the active notifier is notified.
     */
    method HandleException(ex: Exception, now: string)
      modifies this`trace, sink
      ensures var d := Dispatch(config, active, ex, now);
        trace == old(trace) + CallsOf(d) &&
        sink.notified == (if d.ToSink? then Some(ex) else old(sink.notified))
      ensures sink.initialized == old(sink.initialized)
    {
      var d := Dispatch(config, active, ex, now);
      match d
      case ToSink(e) => sink.Notify(e);
      case Outbound(call) => trace := trace + [call];
      case Dropped =>
    }
  }
}
