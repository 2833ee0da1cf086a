# Exception reporter dispatch core

A model of the dispatch core of the Adhearsion reporter plugin. The plugin
subscribes to the application's `:exception` event and forwards each
exception to one configured notifier:

- the sink (`DummyNotifier`), which only records that it was initialised and the last exception;
- Airbrake, through a Toadhopper client;
- NewRelic, through its agent;
- email, through Pony.

The repository's behaviour is fixed by its examples in `spec/reporter_spec.rb`.
The model follows them.

- `environment.dfy`, module `Environment`. The environment filter: report
  if and only if the current environment is not excluded.
- `email_format.dfy`, module `EmailFormat`. The email subject and body.
  `ParseSubject` reads a subject back, and `Lines`, which splits text at
  line breaks, undoes the backtrace join. Round-trip lemmas connect each
  with what it inverts. The body as a whole has no inverse: `BodyLines`
  gives its line structure.
- `reporter.dfy`, module `Reporter`.
  - The configuration, exceptions and notifiers as datatypes.
  - The pure specification `Dispatch` of the exception subscriber, and
    `MakeNotifier`/`InitCalls` for initialisation.
  - The classes `DummyNotifier` and `Controller`. Their methods change
    fields, and their contracts tie the new state to those functions.
  - Every call into a backend library is a `Call` appended to
    `Controller.trace`. Pony's process-wide options are the field
    `Controller.mailOptions`.
- `reporter_spec.dfy`, module `ReporterExamples`. One method per example of
  the repository. Each drives a fresh controller through the example's
  configuration steps, initialisations and events, and proves what the
  example expects. `TrackerUsesDispatchEnvironment` is the exception: it
  sets the environment after initialisation rather than before, to show
  that the environment is read when the exception arrives.
- `wrappers.dfy`: the `Option` datatype.

Collaborators that are not part of this model become inputs:
- The wall-clock time reaches `HandleException` as the text `now`.
  Ruby's `Time#to_s` formatting is not modelled.
- The configuration is an explicit `Config` value. The example steps that
  assign to it are the setter methods.
- Event delivery is a direct, synchronous call of `HandleException`.

## Model

| member | source | states |
|---|---|---|
| `Environment.ShouldReport` | spec/reporter_spec.rb:74-81 | an exception is reported exactly when the current environment is not in the exclusion set (used by `Reporter.Dispatch`; its properties are the three lemmas below) |
| `Environment.DefaultPolicy` | spec/reporter_spec.rb:62-81 | with development excluded, `:production` and `:foo` are reported and `:development` is not |
| `Environment.ExcludingMoreReportsLess` | spec/reporter_spec.rb:74-81 | adding exclusions never makes an environment reportable |
| `Environment.OnlyOwnExclusionMatters` | spec/reporter_spec.rb:66-81 | whether an environment is reported depends only on whether that environment itself is excluded |
| `EmailFormat.Subject` | spec/reporter_spec.rb:144 | the subject `[<app>] Exception: <Type> (<message>)`; its inverse is `ParseSubject` (`SubjectRoundTrip`, `ParseSubjectSound`) |
| `EmailFormat.Body` | spec/reporter_spec.rb:145 | the body `<app> reported an exception at <time>`, a blank line, `<Type> (<message>):`, the backtrace joined with `"\n"`, and a closing blank line; its line structure is `BodyLines` |
| `EmailFormat.Join` | spec/reporter_spec.rb:145 | Ruby's `Array#join(sep)`: the elements with `sep` between neighbours; its inverse for `"\n"` is `Lines` (`JoinLines`, `LinesOfJoin`) |
| `EmailFormat.Lines` | spec/reporter_spec.rb:145 | splitting text at line breaks gives at least one piece, and no piece contains a break |
| `EmailFormat.JoinLines` | spec/reporter_spec.rb:145 | joining the lines of any text with `"\n"` gives back the text |
| `EmailFormat.LinesOfLine` | spec/reporter_spec.rb:145 | a text without breaks is one line |
| `EmailFormat.LinesCons` | spec/reporter_spec.rb:145 | a line followed by a break is split off as exactly that line |
| `EmailFormat.LinesOfJoinThen` | spec/reporter_spec.rb:145 | a nonempty backtrace of break-free frames, joined with `"\n"` and followed by a break, splits back into its frames, then the lines of the rest |
| `EmailFormat.LinesOfJoin` | spec/reporter_spec.rb:145 | a nonempty backtrace of break-free frames, joined with `"\n"`, splits back into exactly those frames |
| `EmailFormat.BodyLines` | spec/reporter_spec.rb:145 | provided the app name, time, class name, message and every frame contain no line break, line by line the body is: the "reported an exception at" line, a blank line, the `Type (message):` line, each backtrace frame (one empty line when there are none), and the closing blank line |
| `EmailFormat.ParseCauseRoundTrip` | spec/reporter_spec.rb:144 | `Type (message)` parses back to the class name and the message, provided the class name has no space |
| `EmailFormat.ParseCauseSound` | spec/reporter_spec.rb:144 | whatever parses as `Type (message)` is that text |
| `EmailFormat.SubjectRoundTrip` | spec/reporter_spec.rb:144 | a subject parses back to its app name, class name and message, provided the app name has no `]` and the class name no space |
| `EmailFormat.ParseSubjectSound` | spec/reporter_spec.rb:144 | whatever parses as a subject is exactly the subject of the parsed fields |
| `EmailFormat.TestSubject` | spec/reporter_spec.rb:144 | for class `ExceptionClass` and any message, the subject is exactly `[<app>] Exception: ExceptionClass (<message>)` |
| `EmailFormat.TestBody` | spec/reporter_spec.rb:139-145 | for class `ExceptionClass`, any message and frames `1: foo`, `2: bar`, the body is exactly the expected text |
| `Reporter.MakeNotifier` | spec/reporter_spec.rb:42-46 | the notifier made active is the configured kind; Airbrake's client holds the configured API key and URL |
| `Reporter.InitCalls` | spec/reporter_spec.rb:45-48 | initialisation makes at most one backend call and no notification: `Toadhopper.new(api_key, notify_host: url)` exactly for Airbrake, `manual_start(newrelic settings)` exactly for NewRelic (as at spec/reporter_spec.rb:92), and none for the sink and email |
| `Reporter.Dispatch` | spec/reporter_spec.rb:57-81 | an event is dropped if and only if nothing was initialised or the environment is excluded. Otherwise it reaches the active notifier. The sink, Airbrake and NewRelic get the original exception. Airbrake's context maps `framework_env` to the environment current at dispatch. Email gets the formatted subject and body |
| `Reporter.ReportedIsDelivered` | spec/reporter_spec.rb:62-71 | after initialisation, an exception that passes the filter reaches the configured notifier, with exactly one backend call for every notifier but the sink |
| `Reporter.ExcludedMakesNoCall` | spec/reporter_spec.rb:74-81 | in an excluded environment an event makes no backend call |
| `Reporter.DummyNotifier.constructor` | spec/reporter_spec.rb:8-10 | a new sink is uninitialised and has recorded nothing |
| `Reporter.DummyNotifier.Init` | spec/reporter_spec.rb:11-13 | `init` sets `initialized` and leaves `notified` |
| `Reporter.DummyNotifier.Notify` | spec/reporter_spec.rb:15-17 | `notify(ex)` sets `notified` to `ex` and leaves `initialized` |
| `Reporter.Controller.constructor` | spec/reporter_spec.rb:24-26 | a new controller has no active notifier, no Pony options and no backend calls |
| `Reporter.Controller.SetNotifier` | spec/reporter_spec.rb:25 | replaces the configured notifier kind only |
| `Reporter.Controller.SetEnvironment` | spec/reporter_spec.rb:67 | replaces the current environment only |
| `Reporter.Controller.SetEmailOptions` | spec/reporter_spec.rb:129 | replaces the email settings only |
| `Reporter.Controller.Init` | spec/reporter_spec.rb:24-27 | the configured notifier becomes active and the trace grows by `InitCalls`. For email, Pony's options become the email settings. For the sink, the sink becomes initialised. The configuration and the sink's last exception are unchanged |
| `Reporter.Controller.HandleException` | spec/reporter_spec.rb:27 | the trace grows by exactly the calls of `Dispatch`; the sink records the exception exactly when `Dispatch` routes it to the sink |
| `ReporterExamples.SinkIsInitialized` | spec/reporter_spec.rb:30-32 | after initialising with the sink selected, the sink is initialised |
| `ReporterExamples.SinkRecordsException` | spec/reporter_spec.rb:34-37 | after initialisation and one reported event, the sink's last exception is that exception |
| `ReporterExamples.TrackerInitialization` | spec/reporter_spec.rb:45-48 | initialisation makes exactly one backend call: `Toadhopper.new` with the configured API key and URL |
| `ReporterExamples.TrackerNotification` | spec/reporter_spec.rb:55-71 | the whole trace is `Toadhopper.new(api_key, notify_host: url)` and then, on the client it built, `post!(ex, {framework_env: env})` with the original exception and the environment set before initialisation |
| `ReporterExamples.TrackerUsesDispatchEnvironment` | spec/reporter_spec.rb:66-72 | the environment is read at dispatch time: one set after initialisation (instead of before it, as the example does) is the one posted, after the single `Toadhopper.new` |
| `ReporterExamples.TrackerSilentWhenExcluded` | spec/reporter_spec.rb:74-81 | in development, after two initialisations, the trace is two `Toadhopper.new` calls and no `post!` |
| `ReporterExamples.ApmInitialization` | spec/reporter_spec.rb:91-94 | initialisation makes exactly one backend call: `manual_start` with the NewRelic settings unchanged |
| `ReporterExamples.ApmNotification` | spec/reporter_spec.rb:96-104 | the whole trace is one `manual_start` with the NewRelic settings followed by `notice_error` with the original exception object |
| `ReporterExamples.EmailInitialization` | spec/reporter_spec.rb:132-135 | after initialisation, Pony's options are exactly the configured email settings |
| `ReporterExamples.EmailNotification` | spec/reporter_spec.rb:137-151 | the mail for an `ExceptionClass` with the given message and the two-frame backtrace is the only backend call, and carries exactly the expected subject and body for time `now` |

## Left out

- The backend libraries: the Toadhopper HTTP client, the NewRelic agent, the Pony mail transport. They are foreign code, and each call is only an entry in the trace. Their responses and delivery failures are not modelled, so neither is a failure being swallowed.
- The asynchronous event bus that `trigger_immediately` and the example's `sleep` stand for. Dispatch is a synchronous call. Ordering relative to other subscribers is not captured.
- The Ruby `Singleton` with `method_missing` forwarding. The controller owns one sink object instead.
- The clock and time formatting (`Time.parse`, `Timecop.freeze`, `Time#to_s`). The time is an input string.
- The plugin lifecycle and configuration loading (`Adhearsion::Plugin.init_plugins`, `config`). They reduce to `Controller.Init` over an explicit `Config`. Configuration errors at initialisation are not visible in the examples and are not modelled.
- The plugin's default configuration: the default notifier, the default exclusion list, and the default environment. The implementation files that define them are not part of this model. `Environment.DefaultExcluded` holds only what the examples show: development is excluded.
- Delivery counts. The model makes at most one backend call per initialisation (none for the sink or email) and per reported event (none for the sink). The tracker, NewRelic and email-notification example contracts give the whole trace. That matches the examples that expect a call once (`Toadhopper.new` at spec/reporter_spec.rb:46, `manual_start` at :92 and :97) and is one of the outcomes allowed by those that expect a call at least once (`post!`, `notice_error`, `Pony.mail`, and `Toadhopper.new` at :55).
- The contents of the Airbrake context beyond `framework_env`. The examples only match that one key. The model sends a context holding only that key.
