/** Properties of the handler that relate several calls or several inputs,
    and the worked requests that pin down its constants. */
module EmailFunctionProperties {
  import opened JavaText
  import opened EmailFunction

  // ---------------------------------------------------------------------
  // The urgency test

  /** The literal is written in lower case, so a priority is urgent exactly
      when folding it to lower case gives "urgente". */
  lemma UrgentIsLowerCaseFold(p: string)
    ensures IsUrgent(p) <==>
              |p| == |UrgentLiteral|
              && forall i :: 0 <= i < |p| ==> ToLowerAscii(p[i]) == UrgentLiteral[i]
  {
    EqualsIgnoreCaseIsPositionwise(UrgentLiteral, p);
    assert forall i :: 0 <= i < |UrgentLiteral| ==> ToLowerAscii(UrgentLiteral[i]) == UrgentLiteral[i];
  }

  /** Any capitalisation of "urgente" is urgent; a near miss is not. */
  lemma UrgentSpellings()
    ensures IsUrgent("urgente") && IsUrgent("URGENTE") && IsUrgent("Urgente")
    ensures !IsUrgent("urgent") && !IsUrgent("urgente ") && !IsUrgent("") && !IsUrgent("baixa")
  {
    UrgentIsLowerCaseFold("urgente");
    UrgentIsLowerCaseFold("URGENTE");
    UrgentIsLowerCaseFold("Urgente");
    UrgentIsLowerCaseFold("urgent");
    UrgentIsLowerCaseFold("urgente ");
    UrgentIsLowerCaseFold("");
    UrgentIsLowerCaseFold("baixa");
  }

  // ---------------------------------------------------------------------
  // The alert's subject and body

  /** The reading direction of the subject: the student's name after the
      fixed prefix. */
  function StudentOfSubject(subject: string): Option<string> {
    if |SubjectPrefix| <= |subject| && subject[..|SubjectPrefix|] == SubjectPrefix
    then Some(subject[|SubjectPrefix|..])
    else None
  }

  lemma SubjectNamesStudent(aluno: string)
    ensures StudentOfSubject(Subject(aluno)) == Some(aluno)
  {
    assert Subject(aluno)[..|SubjectPrefix|] == SubjectPrefix;
  }

  lemma {:induction false} NoNewlineAppend(a: string, b: string)
    requires NoNewline(a) && NoNewline(b)
    ensures NoNewline(a + b)
  {
    forall i | 0 <= i < |a + b| ensures (a + b)[i] != '\n' {
      if i < |a| {
        assert (a + b)[i] == a[i];
      } else {
        assert (a + b)[i] == b[i - |a|];
      }
    }
  }

  lemma IntToStringNoNewline(i: int)
    ensures NoNewline(IntToString(i))
  {
    var s := IntToString(i);
    forall k | 0 <= k < |s| ensures s[k] != '\n' {
      if k > 0 || i >= 0 {
        assert IsDigit(s[k]) by {
          if i < 0 { assert s[k] == s[1..][k - 1]; }
        }
      }
    }
  }

  /** The four lines of the body, as a reader of the mail sees them. */
  function BodyLines(aluno: string, nota: Int32, comentario: Option<string>): seq<string> {
    [BodyHeader, StudentLabel + aluno, ScoreLabel + IntToString(nota as int), CommentLabel + Render(comentario)]
  }

  lemma JoinFourLines(a: string, b: string, c: string, d: string)
    ensures JoinLines([a, b, c, d]) == a + "\n" + b + "\n" + c + "\n" + d
  {
    assert JoinLines([d]) == d;
    assert JoinLines([c, d]) == c + "\n" + d by { assert [c, d][1..] == [d]; }
    assert JoinLines([b, c, d]) == b + "\n" + c + "\n" + d by { assert [b, c, d][1..] == [c, d]; }
    assert [a, b, c, d][1..] == [b, c, d];
  }

  /** When neither the name nor the comment contains a line break, the body
      reads back as exactly four lines (header, student, score, comment), and
      the score line gives back the number. */
  lemma BodyLayout(aluno: string, nota: Int32, comentario: Option<string>)
    requires NoNewline(aluno) && NoNewline(Render(comentario))
    ensures SplitLines(Body(aluno, nota, comentario)) == BodyLines(aluno, nota, comentario)
    ensures ParseInt(SplitLines(Body(aluno, nota, comentario))[2][|ScoreLabel|..]) == Some(nota as int)
  {
    var lines := BodyLines(aluno, nota, comentario);
    var score := IntToString(nota as int);
    assert forall k :: 0 <= k < |lines| ==> NoNewline(lines[k]) by {
      assert NoNewline(BodyHeader);
      assert NoNewline(StudentLabel) && NoNewline(ScoreLabel) && NoNewline(CommentLabel);
      NoNewlineAppend(StudentLabel, aluno);
      IntToStringNoNewline(nota as int);
      NoNewlineAppend(ScoreLabel, score);
      NoNewlineAppend(CommentLabel, Render(comentario));
    }
    assert JoinLines(lines) == Body(aluno, nota, comentario) by {
      JoinFourLines(lines[0], lines[1], lines[2], lines[3]);
    }
    SplitJoinRoundTrip(lines);
    assert lines[2][|ScoreLabel|..] == score;
    IntToStringRoundTrip(nota as int);
  }

  /** Whatever the text, the body carries the student's name right after the
      "Aluno: " label and ends with the comment ("null" when absent). */
  lemma BodyCarriesFields(aluno: string, nota: Int32, comentario: Option<string>)
    ensures var b := Body(aluno, nota, comentario);
            var at := |BodyHeader| + 1 + |StudentLabel|;
            && |b| >= at + |aluno| + |Render(comentario)|
            && b[at..at + |aluno|] == aluno
            && b[|b| - |Render(comentario)|..] == Render(comentario)
  {
    var b := Body(aluno, nota, comentario);
    var head := BodyHeader + "\n" + StudentLabel;
    var tail := "\n" + ScoreLabel + IntToString(nota as int) + "\n" + CommentLabel;
    assert b == head + aluno + tail + Render(comentario);
    assert |head| == |BodyHeader| + 1 + |StudentLabel|;
    assert (head + aluno + tail + Render(comentario))[|head|..|head| + |aluno|] == aluno;
  }

  // ---------------------------------------------------------------------
  // The handler across inputs

  /** A rejected request never reaches the configuration or the SDK: its
      response does not depend on either. */
  lemma RejectionIgnoresConfiguration(request: Option<EmailDto>, env1: Environment, provider1: Provider,
                                      env2: Environment, provider2: Provider)
    requires !IsValid(request)
    ensures Run(request, env1, provider1) == Run(request, env2, provider2)
    ensures Run(request, env1, provider1).response == HttpResponse(StatusBadRequest, BadRequestBody)
  {
  }

  /** Validation looks for null only: empty strings in both required fields
      pass it and reach the configuration and the client build. */
  lemma EmptyFieldsPassValidation(comentario: Option<string>, nota: Int32, env: Environment, provider: Provider)
    ensures var inv := Run(Some(EmailDto(Some(""), comentario, Some(""), nota)), env, provider);
            && inv.response.status != StatusBadRequest
            && |inv.calls| >= 3 && inv.calls[..3] == SetupCalls(env)
  {
  }

  /** For a record that is not urgent, the response and the calls depend on
      the client build only: the send outcomes are never consulted. */
  lemma NotUrgentIgnoresSendOutcomes(request: Option<EmailDto>, env: Environment,
                                     provider1: Provider, provider2: Provider)
    requires IsValid(request) && !IsUrgent(request.value.prioridade.value)
    requires provider1.buildClient == provider2.buildClient
    ensures Run(request, env, provider1) == Run(request, env, provider2)
    ensures SentMessages(Run(request, env, provider1).calls) == []
  {
  }

  /** The complete call sequence of a valid urgent request whose client was
      built: the setup, then the send, then the wait if the send returned, and
      nothing after. */
  lemma UrgentTraceIsExact(request: Option<EmailDto>, env: Environment, provider: Provider)
    requires IsValid(request) && IsUrgent(request.value.prioridade.value)
    requires provider.buildClient.Completes?
    ensures Run(request, env, provider).calls
         == SetupCalls(env) + [BeginSend(UrgentMessage(request.value, GetEnv(env, SenderVar)))]
            + (if provider.beginSend.Completes? then [WaitForCompletion] else [])
  {
  }

  /** Handling an urgent request twice sends two alerts. This holds because
      the handler keeps nothing between invocations: each one is a function of
      its own inputs, so nothing can mark an alert as already sent. */
  lemma NoDeduplication(request: Option<EmailDto>, env: Environment, provider: Provider)
    requires IsValid(request) && IsUrgent(request.value.prioridade.value)
    requires provider.buildClient.Completes?
    ensures var first := Run(request, env, provider);
            var second := Run(request, env, provider);
            |SentMessages(first.calls) + SentMessages(second.calls)| == 2
  {
  }

  // ---------------------------------------------------------------------
  // Worked requests

  const AllReturn: Provider := Provider(Completes, Completes, Completes)

  /** A valid urgent record with a provider that returns everywhere is
      acknowledged with 200 after sending its alert once. */
  lemma UrgentDelivered(dto: EmailDto, env: Environment)
    requires dto.aluno.Some? && dto.prioridade.Some? && IsUrgent(dto.prioridade.value)
    ensures Run(Some(dto), env, AllReturn).response == HttpResponse(StatusOk, OkBody)
    ensures SentMessages(Run(Some(dto), env, AllReturn).calls) == [UrgentMessage(dto, GetEnv(env, SenderVar))]
  {
  }

  const MariaRecord: EmailDto := EmailDto(Some("Maria"), Some("ótimo"), Some("urgente"), 8)
  const NamelessRecord: EmailDto := EmailDto(Some(""), None, Some("urgente"), 0)

  /** The body written for Maria's record, character for character. */
  lemma MariaAlertText()
    ensures Body("Maria", 8, Some("ótimo"))
         == "Detalhes do Feedback:\nAluno: Maria\nNota: 8\nComentário: ótimo"
  {
    assert IntToString(8) == "8";
    assert Render(Some("ótimo")) == "ótimo";
  }

  /** The body written for a record with an empty name and nothing else: the
      score line shows Java's default 0 and the comment line "null". */
  lemma NamelessAlertText()
    ensures Body("", 0, None) == "Detalhes do Feedback:\nAluno: \nNota: 0\nComentário: null"
  {
    assert IntToString(0) == "0";
  }

  /** An urgent record for Maria with a provider that returns everywhere:
      200, and one alert with the expected recipient, subject and body. */
  lemma UrgentRequestForMaria(env: Environment)
    ensures Run(Some(MariaRecord), env, AllReturn).response
         == HttpResponse(StatusOk, "Feedback processado com sucesso.")
    ensures |SentMessages(Run(Some(MariaRecord), env, AllReturn).calls)| == 1
    ensures SentMessages(Run(Some(MariaRecord), env, AllReturn).calls)[0].toRecipients
         == ["admin@escola.com"]
    ensures SentMessages(Run(Some(MariaRecord), env, AllReturn).calls)[0].subject
         == "ALERTA URGENTE: Feedback de Maria"
    ensures SentMessages(Run(Some(MariaRecord), env, AllReturn).calls)[0].bodyPlainText
         == "Detalhes do Feedback:\nAluno: Maria\nNota: 8\nComentário: ótimo"
  {
    assert IsUrgent("urgente") by { UrgentIsLowerCaseFold("urgente"); }
    MariaAlertText();
    UrgentDelivered(MariaRecord, env);
    var m := UrgentMessage(MariaRecord, GetEnv(env, SenderVar));
    assert m.subject == Subject("Maria");
    assert m.bodyPlainText == Body("Maria", 8, Some("ótimo"));
  }

  /** An empty name with an urgent priority and no other fields is accepted,
      not rejected, and its alert is sent. */
  lemma EmptyStudentIsAccepted(env: Environment)
    ensures Run(Some(NamelessRecord), env, AllReturn).response.status == StatusOk
    ensures |SentMessages(Run(Some(NamelessRecord), env, AllReturn).calls)| == 1
    ensures SentMessages(Run(Some(NamelessRecord), env, AllReturn).calls)[0].bodyPlainText
         == "Detalhes do Feedback:\nAluno: \nNota: 0\nComentário: null"
  {
    assert IsUrgent("urgente") by { UrgentIsLowerCaseFold("urgente"); }
    NamelessAlertText();
    UrgentDelivered(NamelessRecord, env);
    var m := UrgentMessage(NamelessRecord, GetEnv(env, SenderVar));
    assert m.bodyPlainText == Body("", 0, None);
  }

  /** A low-priority record is acknowledged without any send. */
  lemma LowPriorityNotSent(env: Environment, provider: Provider)
    requires provider.buildClient.Completes?
    ensures var inv := Run(Some(EmailDto(Some("João"), None, Some("baixa"), 0)), env, provider);
            && inv.response == HttpResponse(StatusOk, "Feedback processado com sucesso.")
            && SentMessages(inv.calls) == []
  {
    UrgentIsLowerCaseFold("baixa");
  }

  /** A client build that throws makes even a valid urgent record a 500
      carrying the exception's message. */
  lemma BuildFailureReported(env: Environment)
    ensures var inv := Run(Some(EmailDto(Some("Maria"), None, Some("URGENTE"), 8)), env,
                           Provider(Throws(Some("endpoint inválido")), Completes, Completes));
            && inv.response == HttpResponse(StatusInternalError,
                                            "Erro interno ao processar e-mail: endpoint inválido")
            && SentMessages(inv.calls) == []
  {
  }
}
