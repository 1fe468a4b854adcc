# Feedback intake function: a Dafny model

This project models `Function.run`, the Azure Functions HTTP handler
`enviarEmail` of a student-feedback service, and its request record
`EmailDTO`. The handler does five things:

1. It checks the decoded record: the body must be present, and neither
   `prioridade` nor `aluno` may be null.
2. It reads `ACS_ENDPOINT` and `SENDER_EMAIL` from the environment and builds
   an email client.
3. It compares `prioridade` with `"urgente"`, ignoring case.
4. When the record is urgent, it sends one alert to `admin@escola.com` and
   waits for the send to finish.
5. It answers 400 or 200 with a fixed text, or 500 with a fixed prefix
   followed by the exception's message.

The model is a set of pure functions (`JavaText.dfy`, `EmailFunction.dfy`).
The lemmas in `EmailFunctionProperties.dfy` relate the handler's behaviour
across inputs and check worked requests.

The SDK calls have no model of their own. Their outcomes are inputs: the
`Provider` value says, for building the client, for `beginSend` and for
`waitForCompletion`, whether the call returns or throws, and with which
message. That message may be null. The environment is a `map`, read as
`System.getenv` reads it. Every environment read and SDK call the handler
makes goes into `Invocation.calls`, in order; the credential is part of the
client build, and logging is not recorded. So the contracts can say which
calls happen: none for a rejected request, the client build before the
urgency test, and exactly one send for an urgent record whose client was
built.

Java semantics are written out where the handler depends on them:

- A null `String` concatenates as `"null"` (`JavaText.Render`).
- `nota` is a Java `int` (`JavaText.Int32`), rendered by `Integer.toString`
  (`JavaText.IntToString`).
- `equalsIgnoreCase` is modelled as an ASCII case fold
  (`JavaText.EqualsIgnoreCase`).

## Model

| member | source | states |
|---|---|---|
| `JavaText.Render` | src/main/java/com/postechfiap/Function.java:67-70 | a non-null string concatenates as itself; a null one as the text "null" |
| `JavaText.NatToDigits` | src/main/java/com/postechfiap/Function.java:69 | the rendering of a natural number is a non-empty run of decimal digits with no leading zero |
| `JavaText.IntToString` | src/main/java/com/postechfiap/Function.java:69 | the rendering of `nota` starts with '-' exactly when it is negative, and is otherwise made of decimal digits |
| `JavaText.IntToStringRoundTrip` | src/main/java/com/postechfiap/Function.java:69 | reading the rendered score back as a decimal number gives the score |
| `JavaText.IntToStringInjective` | src/main/java/com/postechfiap/Function.java:69 | different scores always give different "Nota" texts |
| `JavaText.EqualsIgnoreCaseIsPositionwise` | src/main/java/com/postechfiap/Function.java:60 | the front-to-back comparison holds exactly when both strings have the same length and match ignoring case at every position (both directions) |
| `JavaText.SplitJoinRoundTrip` | src/main/java/com/postechfiap/Function.java:67-70 | cutting a body at its line breaks gives back the lines it was written from, when no line has a break of its own |
| `EmailFunction.GetEnv` | src/main/java/com/postechfiap/Function.java:50-51 | a setting reads as present exactly when the environment defines it, with its value; an unset variable reads as null |
| `EmailFunction.SetupCalls` | src/main/java/com/postechfiap/Function.java:50-57 | the steps before the urgency test are the two environment reads and the client build, and they include no send and no wait |
| `EmailFunction.UrgentMessage` | src/main/java/com/postechfiap/Function.java:63-70 | the alert's sender is the `SENDER_EMAIL` value unchanged (null included); its recipients are exactly `admin@escola.com`, whatever the input; the subject and body are built from the record |
| `EmailFunction.ErrorBody` | src/main/java/com/postechfiap/Function.java:83-87 | the 500 body is the fixed prefix followed by the exception's message, or by "null" when the exception has no message |
| `EmailFunction.SendAndWait` | src/main/java/com/postechfiap/Function.java:72-87 | the send comes first and the wait, made only if the send returned, comes last, with no other call; 200 exactly when both returned, otherwise 500 carrying the message of whichever call threw first |
| `EmailFunction.Dispatch` | src/main/java/com/postechfiap/Function.java:50-88 | after validation: configuration reads and client build come first, and after them only the send and the wait, the wait last; the urgent alert is sent once exactly when the build returned and the priority is urgent; 200 exactly when nothing that ran threw; otherwise 500 with the first thrown message |
| `EmailFunction.Run` | src/main/java/com/postechfiap/Function.java:27-89 | 400 exactly when the body is absent or `prioridade` or `aluno` is null, with the fixed text and no external call; otherwise configuration reads and client build before anything else; one send of the alert exactly for a built client and an urgent priority, zero otherwise; after the setup only the send and then the wait, the wait made only after a send that returned and nothing called after it; 200 exactly for not-urgent, or urgent with send and wait returning; every other valid case is 500 with the message of the first call that threw; the status is always 200, 400 or 500 |
| `EmailFunctionProperties.UrgentIsLowerCaseFold` | src/main/java/com/postechfiap/Function.java:60 | a priority is urgent exactly when it has seven characters that fold to "urgente" |
| `EmailFunctionProperties.UrgentSpellings` | src/main/java/com/postechfiap/Function.java:60 | "urgente", "URGENTE" and "Urgente" are urgent; "urgent", "urgente " (with a trailing space), "" and "baixa" are not |
| `EmailFunctionProperties.SubjectNamesStudent` | src/main/java/com/postechfiap/Function.java:66 | the student's name can be read back from the subject, after the fixed prefix |
| `EmailFunctionProperties.BodyLayout` | src/main/java/com/postechfiap/Function.java:67-70 | when the name and the comment have no line break, the body reads back as exactly four lines (header, "Aluno: " and name, "Nota: " and score, "Comentário: " and comment), and the score line gives back the score |
| `EmailFunctionProperties.BodyCarriesFields` | src/main/java/com/postechfiap/Function.java:67-70 | whatever the text, the name sits right after the "Aluno: " label and the body ends with the comment, or with "null" when there is none |
| `EmailFunctionProperties.RejectionIgnoresConfiguration` | src/main/java/com/postechfiap/Function.java:39-46 | a rejected request answers 400 with the fixed text, whatever the environment and the SDK would do |
| `EmailFunctionProperties.EmptyFieldsPassValidation` | src/main/java/com/postechfiap/Function.java:42 | empty `aluno` and `prioridade` are not rejected: the request goes on to the configuration reads and the client build |
| `EmailFunctionProperties.NotUrgentIgnoresSendOutcomes` | src/main/java/com/postechfiap/Function.java:60-81 | for a valid record that is not urgent, nothing depends on how send and wait would behave, and nothing is sent |
| `EmailFunctionProperties.UrgentTraceIsExact` | src/main/java/com/postechfiap/Function.java:50-77 | for a valid urgent request with a built client, the calls are exactly the two environment reads, the client build, the send of the alert, and the wait when the send returned |
| `EmailFunctionProperties.NoDeduplication` | src/main/java/com/postechfiap/Function.java:60-74 | handling the same urgent request twice sends two alerts, since nothing is kept between invocations |
| `EmailFunctionProperties.UrgentDelivered` | src/main/java/com/postechfiap/Function.java:60-81 | a valid urgent record, with every SDK call returning, is answered 200 after exactly one send of its alert |
| `EmailFunctionProperties.MariaAlertText` | src/main/java/com/postechfiap/Function.java:67-70 | Maria's record (score 8, comment "ótimo") gives the body "Detalhes do Feedback:\nAluno: Maria\nNota: 8\nComentário: ótimo" |
| `EmailFunctionProperties.NamelessAlertText` | src/main/java/com/postechfiap/Function.java:67-70 | an empty name with no score and no comment gives "Nota: 0" and "Comentário: null" |
| `EmailFunctionProperties.UrgentRequestForMaria` | src/main/java/com/postechfiap/Function.java:60-81 | Maria's urgent record gets 200 and one alert to admin@escola.com, with subject "ALERTA URGENTE: Feedback de Maria" and the expected body |
| `EmailFunctionProperties.EmptyStudentIsAccepted` | src/main/java/com/postechfiap/Function.java:42-81 | an urgent record with an empty name is accepted and its alert is sent |
| `EmailFunctionProperties.LowPriorityNotSent` | src/main/java/com/postechfiap/Function.java:60-81 | João's record with priority "baixa" gets 200 and nothing is sent |
| `EmailFunctionProperties.BuildFailureReported` | src/main/java/com/postechfiap/Function.java:53-87 | when the client build throws, even a valid urgent record gets 500 carrying the exception's message, and nothing is sent |

## Behaviour worth noting

- Validation checks only for null (line 42). An empty `aluno` or
  `prioridade` passes validation, so the request `{aluno:"", prioridade:"urgente"}`
  is not answered 400. When every SDK call returns, it gets 200 and one
  alert (`EmptyStudentIsAccepted`).
- The alert has exactly one recipient, `admin@escola.com` (line 65).
- The handler never reads the terminal status of the send (line 74). A
  500 comes only from an exception. If `waitForCompletion` returns, the
  response is 200, whatever final status the poller reports.

## Left out

- The Azure Communication Services SDK (`EmailClientBuilder`, `beginSend`,
  `SyncPoller.waitForCompletion`) is a foreign library. Only whether each of
  the three calls returns or throws, and with which message, is modelled.
- `DefaultAzureCredentialBuilder` is an identity and network call. Its
  `build()` only creates the credential; the token is fetched on the first
  authenticated request. A credential failure therefore shows up as an
  exception from the client build or from `beginSend`, both of which the
  model lets throw.
- The endpoint appears only as the argument recorded in the `BuildClient`
  call. Its effect on the build is part of that call's outcome.
- JSON decoding by the Functions host is out of scope. The input is an
  already-decoded `Option<EmailDto>`: a field missing from the JSON is null,
  and a missing `nota` is Java's default 0. The bean setters of `EmailDTO`
  become the fields of an immutable datatype.
- HTTP trigger annotations, `HttpRequestMessage` and the response builder
  are host plumbing. Only the status code and the body text are kept.
- The `context.getLogger()` calls are logging and do not affect control
  flow.
- `JavaText.EqualsIgnoreCase` folds only the ASCII letters A-Z, while Java's
  `equalsIgnoreCase` compares upper- and lower-case forms across all of
  Unicode. Against the literal "urgente" both give the same answer: no
  non-ASCII character folds to u, r, g, e, n or t.
- Strings are sequences of Unicode scalar values, while a Java `String` is a
  sequence of UTF-16 code units: a lone surrogate cannot be represented, and
  lengths differ for characters outside the Basic Multilingual Plane. The
  handler only concatenates strings and compares one with an ASCII literal,
  so none of its answers depends on this.
- `catch (Exception e)` does not catch a `java.lang.Error`, which would
  escape to the host without a response. The model gives every SDK failure
  a message and a 500.
- How long the wait takes, and any host timeout that cuts it short, are
  not modelled. Each invocation is a function of its inputs, and nothing
  is shared between invocations.
