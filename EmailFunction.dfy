/** The HTTP-triggered handler `Function.run` ("enviarEmail") and its request
    record `EmailDTO`.

    The handler validates the decoded feedback record, builds an Azure
    Communication Services email client, and, when the priority is "urgente"
    (ignoring case), sends one alert to the school administrator and waits for
    the send to finish. Every outcome becomes a 400, 200 or 500 response.

    The SDK calls are not modelled: their outcomes are parameters (`Provider`),
    the process environment is a map, and the environment reads and SDK calls
    the handler makes are recorded, in order, in `Invocation.calls` (logging
    is not). */
module EmailFunction {
  import opened JavaText

  // ---------------------------------------------------------------------
  // Data

  /** `EmailDTO` as the host decodes it from JSON. A missing string field is
      null (`None`); a missing `nota` keeps Java's default 0. */
  datatype EmailDto = EmailDto(
    aluno: Option<string>,
    comentario: Option<string>,
    prioridade: Option<string>,
    nota: Int32)

  /** The `EmailMessage` handed to `beginSend`. */
  datatype EmailMessage = EmailMessage(
    sender: Option<string>,
    toRecipients: seq<string>,
    subject: string,
    bodyPlainText: string)

  /** What one SDK call does: it returns normally, or it throws an exception
      whose `getMessage()` may be null. */
  datatype Attempt = Completes | Throws(message: Option<string>)

  /** How the three SDK calls behave in this invocation: building the client
      (credential acquisition included), `beginSend`, and
      `waitForCompletion`. */
  datatype Provider = Provider(buildClient: Attempt, beginSend: Attempt, waitForCompletion: Attempt)

  /** An external call made by the handler. */
  datatype Call =
    | ReadEnv(name: string)
    | BuildClient(endpoint: Option<string>)
    | BeginSend(message: EmailMessage)
    | WaitForCompletion

  /** Process environment, as `System.getenv` sees it. */
  type Environment = map<string, string>

  datatype HttpResponse = HttpResponse(status: int, body: string)

  /** What one invocation returns and which external calls it made. */
  datatype Invocation = Invocation(response: HttpResponse, calls: seq<Call>)

  // ---------------------------------------------------------------------
  // Constants of the handler

  const EndpointVar: string := "ACS_ENDPOINT"
  const SenderVar: string := "SENDER_EMAIL"
  const UrgentLiteral: string := "urgente"
  const AdminAddress: string := "admin@escola.com"
  const SubjectPrefix: string := "ALERTA URGENTE: Feedback de "
  const BodyHeader: string := "Detalhes do Feedback:"
  const StudentLabel: string := "Aluno: "
  const ScoreLabel: string := "Nota: "
  const CommentLabel: string := "Comentário: "

  const StatusOk: int := 200
  const StatusBadRequest: int := 400
  const StatusInternalError: int := 500

  const BadRequestBody: string := "Payload inválido: aluno e prioridade são obrigatórios."
  const OkBody: string := "Feedback processado com sucesso."
  const ErrorPrefix: string := "Erro interno ao processar e-mail: "

  // ---------------------------------------------------------------------
  // The parts of the handler

  /** `System.getenv(name)`: null when the variable is not set. */
  function GetEnv(env: Environment, name: string): (v: Option<string>)
    ensures v.Some? <==> name in env
    ensures v.Some? ==> v.value == env[name]
  {
    if name in env then Some(env[name]) else None
  }

  /** The validation guard: a body was decoded and neither `prioridade` nor
      `aluno` is null. Empty strings are accepted. */
  predicate IsValid(request: Option<EmailDto>) {
    request.Some? && request.value.prioridade.Some? && request.value.aluno.Some?
  }

  /** `"urgente".equalsIgnoreCase(prioridade)`. */
  predicate IsUrgent(prioridade: string) {
    EqualsIgnoreCase(UrgentLiteral, prioridade)
  }

  function Subject(aluno: string): string {
    SubjectPrefix + aluno
  }

  /** The plain-text body, written as the handler concatenates it. */
  function Body(aluno: string, nota: Int32, comentario: Option<string>): string {
    BodyHeader + "\n" + StudentLabel + aluno + "\n" + ScoreLabel + IntToString(nota as int)
      + "\n" + CommentLabel + Render(comentario)
  }

  /** The alert sent for an urgent record. */
  function UrgentMessage(dto: EmailDto, sender: Option<string>): (m: EmailMessage)
    requires dto.aluno.Some?
    ensures m.sender == sender
    ensures m.toRecipients == [AdminAddress]
    ensures m.subject == Subject(dto.aluno.value)
    ensures m.bodyPlainText == Body(dto.aluno.value, dto.nota, dto.comentario)
  {
    EmailMessage(sender, [AdminAddress], Subject(dto.aluno.value),
                 Body(dto.aluno.value, dto.nota, dto.comentario))
  }

  /** The 500 body: the prefix and the exception's message, "null" if it has none. */
  function ErrorBody(message: Option<string>): (b: string)
    ensures |b| >= |ErrorPrefix| && b[..|ErrorPrefix|] == ErrorPrefix
    ensures message.Some? ==> b[|ErrorPrefix|..] == message.value
    ensures message.None? ==> b[|ErrorPrefix|..] == NullText
  {
    ErrorPrefix + Render(message)
  }

  /** The messages handed to `beginSend`, in order. */
  function SentMessages(calls: seq<Call>): seq<EmailMessage> {
    if calls == [] then []
    else (if calls[0].BeginSend? then [calls[0].message] else []) + SentMessages(calls[1..])
  }

  /** Number of `waitForCompletion` calls in a trace. */
  function WaitCount(calls: seq<Call>): nat {
    if calls == [] then 0
    else (if calls[0].WaitForCompletion? then 1 else 0) + WaitCount(calls[1..])
  }

  /** Reading sends and waits off a trace distributes over concatenation. */
  lemma {:induction false} TraceAppend(a: seq<Call>, b: seq<Call>)
    ensures SentMessages(a + b) == SentMessages(a) + SentMessages(b)
    ensures WaitCount(a + b) == WaitCount(a) + WaitCount(b)
    decreases |a|
  {
    if a == [] {
      assert a + b == b;
    } else {
      assert (a + b)[1..] == a[1..] + b;
      TraceAppend(a[1..], b);
    }
  }

  /** A trace of one call. */
  lemma TraceSingle(c: Call)
    ensures SentMessages([c]) == (if c.BeginSend? then [c.message] else [])
    ensures WaitCount([c]) == (if c.WaitForCompletion? then 1 else 0)
  {
    assert [c][1..] == [];
  }

  /** The calls every valid request makes first: both environment reads, then
      the client build. */
  function SetupCalls(env: Environment): (calls: seq<Call>)
    ensures |calls| == 3
    ensures SentMessages(calls) == [] && WaitCount(calls) == 0
  {
    var read := [ReadEnv(EndpointVar)] + [ReadEnv(SenderVar)];
    TraceSingle(ReadEnv(EndpointVar));
    TraceSingle(ReadEnv(SenderVar));
    TraceSingle(BuildClient(GetEnv(env, EndpointVar)));
    TraceAppend([ReadEnv(EndpointVar)], [ReadEnv(SenderVar)]);
    TraceAppend(read, [BuildClient(GetEnv(env, EndpointVar))]);
    read + [BuildClient(GetEnv(env, EndpointVar))]
  }

  // ---------------------------------------------------------------------
  // The handler

  /** `beginSend` followed by `waitForCompletion`; the first call that throws
      ends the attempt. The terminal status the poller reports is not read. */
  function SendAndWait(message: EmailMessage, provider: Provider): (inv: Invocation)
    ensures SentMessages(inv.calls) == [message]
    ensures WaitCount(inv.calls) == (if provider.beginSend.Completes? then 1 else 0)
    // The send comes first, the wait (if any) last, and nothing else is called.
    ensures |inv.calls| == 1 + WaitCount(inv.calls) && inv.calls[0] == BeginSend(message)
    ensures WaitCount(inv.calls) == 1 ==> inv.calls[|inv.calls| - 1] == WaitForCompletion
    ensures inv.response.status == StatusOk <==>
              provider.beginSend.Completes? && provider.waitForCompletion.Completes?
    ensures inv.response.status == StatusOk ==> inv.response.body == OkBody
    ensures inv.response.status != StatusOk ==> inv.response.status == StatusInternalError
    ensures provider.beginSend.Throws? ==>
              inv.response.body == ErrorBody(provider.beginSend.message)
    ensures provider.beginSend.Completes? && provider.waitForCompletion.Throws? ==>
              inv.response.body == ErrorBody(provider.waitForCompletion.message)
  {
    TraceSingle(BeginSend(message));
    TraceSingle(WaitForCompletion);
    TraceAppend([BeginSend(message)], [WaitForCompletion]);
    match provider.beginSend
    case Throws(e) =>
      Invocation(HttpResponse(StatusInternalError, ErrorBody(e)), [BeginSend(message)])
    case Completes =>
      var calls := [BeginSend(message)] + [WaitForCompletion];
      match provider.waitForCompletion
      case Throws(e) => Invocation(HttpResponse(StatusInternalError, ErrorBody(e)), calls)
      case Completes => Invocation(HttpResponse(StatusOk, OkBody), calls)
  }

  /** The `try` block of the handler, entered once validation has passed:
      read the configuration, build the client, and dispatch if urgent. */
  function Dispatch(dto: EmailDto, env: Environment, provider: Provider): (inv: Invocation)
    requires dto.aluno.Some? && dto.prioridade.Some?
    ensures |inv.calls| >= 3 && inv.calls[..3] == SetupCalls(env)
    ensures SentMessages(inv.calls) ==
              (if provider.buildClient.Completes? && IsUrgent(dto.prioridade.value)
               then [UrgentMessage(dto, GetEnv(env, SenderVar))] else [])
    ensures WaitCount(inv.calls) ==
              (if |SentMessages(inv.calls)| == 1 && provider.beginSend.Completes? then 1 else 0)
    // After the setup come only the send and the wait, the wait last.
    ensures |inv.calls| == 3 + |SentMessages(inv.calls)| + WaitCount(inv.calls)
    ensures WaitCount(inv.calls) == 1 ==> inv.calls[|inv.calls| - 1] == WaitForCompletion
    ensures inv.response.status == StatusOk <==>
              provider.buildClient.Completes?
              && (!IsUrgent(dto.prioridade.value)
                  || (provider.beginSend.Completes? && provider.waitForCompletion.Completes?))
    ensures inv.response.status == StatusOk ==> inv.response.body == OkBody
    ensures inv.response.status != StatusOk ==> inv.response.status == StatusInternalError
    ensures provider.buildClient.Throws? ==>
              inv.response.body == ErrorBody(provider.buildClient.message)
    ensures provider.buildClient.Completes? && IsUrgent(dto.prioridade.value)
            && provider.beginSend.Throws? ==>
              inv.response.body == ErrorBody(provider.beginSend.message)
    ensures provider.buildClient.Completes? && IsUrgent(dto.prioridade.value)
            && provider.beginSend.Completes? && provider.waitForCompletion.Throws? ==>
              inv.response.body == ErrorBody(provider.waitForCompletion.message)
  {
    var senderEmail := GetEnv(env, SenderVar);
    var setup := SetupCalls(env);
    match provider.buildClient
    case Throws(e) =>
      Invocation(HttpResponse(StatusInternalError, ErrorBody(e)), setup)
    case Completes =>
      if !IsUrgent(dto.prioridade.value) then
        Invocation(HttpResponse(StatusOk, OkBody), setup)
      else
        var sent := SendAndWait(UrgentMessage(dto, senderEmail), provider);
        TraceAppend(setup, sent.calls);
        assert (setup + sent.calls)[..3] == setup;
        assert (setup + sent.calls)[|setup + sent.calls| - 1] == sent.calls[|sent.calls| - 1];
        Invocation(sent.response, setup + sent.calls)
  }

  /** `Function.run`: from the decoded body, the environment and the SDK's
      behaviour to the response and the external calls made. */
  function Run(request: Option<EmailDto>, env: Environment, provider: Provider): (inv: Invocation)
    // Rejection: exactly the requests the guard refuses, with no external call.
    ensures inv.response.status == StatusBadRequest <==> !IsValid(request)
    ensures !IsValid(request) ==> inv.response.body == BadRequestBody && inv.calls == []
    // A valid request reads the configuration and builds the client before
    // anything depends on its priority.
    ensures IsValid(request) ==> |inv.calls| >= 3 && inv.calls[..3] == SetupCalls(env)
    // One send, of the alert, exactly when the client was built and the
    // record is urgent; a wait only after a send that returned.
    ensures SentMessages(inv.calls) ==
              (if IsValid(request) && provider.buildClient.Completes?
                  && IsUrgent(request.value.prioridade.value)
               then [UrgentMessage(request.value, GetEnv(env, SenderVar))] else [])
    ensures WaitCount(inv.calls) ==
              (if |SentMessages(inv.calls)| == 1 && provider.beginSend.Completes? then 1 else 0)
    // After the setup come only the send and the wait, the wait last.
    ensures IsValid(request) ==> |inv.calls| == 3 + |SentMessages(inv.calls)| + WaitCount(inv.calls)
    ensures WaitCount(inv.calls) == 1 ==> inv.calls[|inv.calls| - 1] == WaitForCompletion
    // Success: not urgent, or urgent and both send and wait return.
    ensures inv.response.status == StatusOk <==>
              IsValid(request) && provider.buildClient.Completes?
              && (!IsUrgent(request.value.prioridade.value)
                  || (provider.beginSend.Completes? && provider.waitForCompletion.Completes?))
    ensures inv.response.status == StatusOk ==> inv.response.body == OkBody
    ensures inv.response.status in {StatusOk, StatusBadRequest, StatusInternalError}
    // Failure: the message of the first call that threw.
    ensures IsValid(request) && provider.buildClient.Throws? ==>
              inv.response == HttpResponse(StatusInternalError, ErrorBody(provider.buildClient.message))
    ensures IsValid(request) && provider.buildClient.Completes?
            && IsUrgent(request.value.prioridade.value) && provider.beginSend.Throws? ==>
              inv.response == HttpResponse(StatusInternalError, ErrorBody(provider.beginSend.message))
    ensures IsValid(request) && provider.buildClient.Completes?
            && IsUrgent(request.value.prioridade.value) && provider.beginSend.Completes?
            && provider.waitForCompletion.Throws? ==>
              inv.response == HttpResponse(StatusInternalError, ErrorBody(provider.waitForCompletion.message))
  {
    if !IsValid(request) then
      Invocation(HttpResponse(StatusBadRequest, BadRequestBody), [])
    else
      Dispatch(request.value, env, provider)
  }
}
