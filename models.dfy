/** The entities of the event manager and the rules attached to them: the `clean()` validators
    and database CheckConstraints of users and events, and the registration-capacity and
    certificate-eligibility rules enforced when a registration or a certificate is saved. */
module Models {
  import opened Wrappers
  import opened Text

  type UserId = nat
  type EventId = nat
  /** A registration is identified by its (event, participant) pair: the pair is unique. */
  type InscricaoKey = (EventId, UserId)

  // ---------------------------------------------------------------------------
  // Choices
  // ---------------------------------------------------------------------------

  datatype Perfil = Aluno | Professor | Organizador | Admin | Visitante {
    /** The value stored in the `perfil` column. */
    function Value(): string {
      match this
      case Aluno => "ALUNO"
      case Professor => "PROFESSOR"
      case Organizador => "ORGANIZADOR"
      case Admin => "ADMIN"
      case Visitante => "VISITANTE"
    }

    /** The human-readable label (`get_perfil_display()`). */
    function Label(): string {
      match this
      case Aluno => "Aluno"
      case Professor => "Professor"
      case Organizador => "Organizador"
      case Admin => "Admin"
      case Visitante => "Visitante"
    }
  }

  /** Membership of a posted string in `PerfilChoices`. */
  function ParsePerfil(s: string): (r: Option<Perfil>)
    ensures r.Some? ==> r.value.Value() == s
  {
    if s == "ALUNO" then Some(Aluno)
    else if s == "PROFESSOR" then Some(Professor)
    else if s == "ORGANIZADOR" then Some(Organizador)
    else if s == "ADMIN" then Some(Admin)
    else if s == "VISITANTE" then Some(Visitante)
    else None
  }

  /** Every stored perfil value is recognised, as itself. */
  lemma ParsePerfilValue(p: Perfil)
    ensures ParsePerfil(p.Value()) == Some(p)
  {
    match p
    case Aluno =>
    case Professor =>
    case Organizador =>
    case Admin => assert "ADMIN"[1] != "ALUNO"[1];
    case Visitante =>
  }

  datatype TipoEvento = Palestra | Workshop | Minicurso | Seminario | Outro {
    function Value(): string {
      match this
      case Palestra => "PALESTRA"
      case Workshop => "WORKSHOP"
      case Minicurso => "MINICURSO"
      case Seminario => "SEMINARIO"
      case Outro => "OUTRO"
    }

    /** The human-readable label (`get_tipo_display()`). */
    function Label(): string {
      match this
      case Palestra => "Palestra"
      case Workshop => "Workshop"
      case Minicurso => "Minicurso"
      case Seminario => "Seminário"
      case Outro => "Outro"
    }
  }

  /** Membership of a posted string in `TipoEventoChoices`. */
  function ParseTipoEvento(s: string): (r: Option<TipoEvento>)
    ensures r.Some? ==> r.value.Value() == s
  {
    if s == "PALESTRA" then Some(Palestra)
    else if s == "WORKSHOP" then Some(Workshop)
    else if s == "MINICURSO" then Some(Minicurso)
    else if s == "SEMINARIO" then Some(Seminario)
    else if s == "OUTRO" then Some(Outro)
    else None
  }

  lemma ParseTipoEventoValue(t: TipoEvento)
    ensures ParseTipoEvento(t.Value()) == Some(t)
  {
    match t
    case Palestra =>
    case Workshop => assert "WORKSHOP"[0] != "PALESTRA"[0];
    case Minicurso =>
    case Seminario => assert "SEMINARIO"[0] != "MINICURSO"[0];
    case Outro =>
  }

  datatype InscricaoStatus = Pendente | Confirmada | Cancelada {
    function Value(): string {
      match this
      case Pendente => "PENDENTE"
      case Confirmada => "CONFIRMADA"
      case Cancelada => "CANCELADA"
    }

    /** The human-readable label (`get_status_display()`). */
    function Label(): string {
      match this
      case Pendente => "Pendente"
      case Confirmada => "Confirmada"
      case Cancelada => "Cancelada"
    }
  }

  /** Membership of a posted string in `InscricaoStatus`. */
  function ParseInscricaoStatus(s: string): (r: Option<InscricaoStatus>)
    ensures r.Some? ==> r.value.Value() == s
  {
    if s == "PENDENTE" then Some(Pendente)
    else if s == "CONFIRMADA" then Some(Confirmada)
    else if s == "CANCELADA" then Some(Cancelada)
    else None
  }

  lemma ParseInscricaoStatusValue(st: InscricaoStatus)
    ensures ParseInscricaoStatus(st.Value()) == Some(st)
  {
    match st
    case Pendente =>
    case Confirmada =>
    case Cancelada => assert "CANCELADA"[1] != "CONFIRMADA"[1];
  }

  // ---------------------------------------------------------------------------
  // Validation errors
  // ---------------------------------------------------------------------------

  /** Django's `ValidationError`: either a dictionary from field names to their messages
      (in insertion order) or a plain list of messages. */
  datatype ValidationError =
    | ErrorDict(entries: seq<(string, seq<string>)>)
    | ErrorList(messages: seq<string>)

  /** The key Django files a `ValidationError` under when `clean()` raises it without a field. */
  const NON_FIELD_ERRORS: string := "__all__"

  // ---------------------------------------------------------------------------
  // Usuario
  // ---------------------------------------------------------------------------

  datatype Usuario = Usuario(
    username: string,
    nome: string,
    email: string,
    telefone: string,
    perfil: Perfil,
    instituicao: Option<string>)

  /** The roles that must name an institution. */
  predicate ExigeInstituicao(p: Perfil) {
    p == Aluno || p == Professor
  }

  /** Python truthiness of an optional string: present and non-empty. */
  predicate Truthy(s: Option<string>) {
    s.Some? && s.value != ""
  }

  /** The database CheckConstraint `instituicao_required_for_aluno_prof`:
      `perfil NOT IN (ALUNO, PROFESSOR) OR (instituicao IS NOT NULL AND instituicao <> '')`. */
  predicate UsuarioCheckConstraint(u: Usuario) {
    !(u.perfil in {Aluno, Professor}) || (u.instituicao.Some? && u.instituicao.value != "")
  }

  const MSG_INSTITUICAO_OBRIGATORIA: string := "Instituição é obrigatória para este perfil."

  /** `Usuario.clean()`: rejects a student or professor without an institution. */
  function UsuarioClean(u: Usuario): (r: Option<ValidationError>)
    ensures r.None? <==> UsuarioCheckConstraint(u)
    ensures r.Some? ==> r.value.ErrorDict? && |r.value.entries| == 1 && r.value.entries[0].0 == "instituicao"
  {
    if ExigeInstituicao(u.perfil) && !Truthy(u.instituicao) then
      Some(ErrorDict([("instituicao", [MSG_INSTITUICAO_OBRIGATORIA])]))
    else
      None
  }

  // ---------------------------------------------------------------------------
  // Evento
  // ---------------------------------------------------------------------------

  /** An event row. `titulo` and `cargaHoraria` are not fields of the repository's `Evento`;
      they are reconstructed from their reads in `api/endpoints.py`, `api/audit.py` and the
      certificate command. Dates are day numbers; `atualizado_em` is not modelled. */
  datatype Evento = Evento(
    tipo: TipoEvento,
    titulo: string,
    dataInicio: int,
    dataFim: int,
    local: string,
    capacidade: int,
    cargaHoraria: int,
    organizador: UserId,
    criadoEm: int)

  /** The roles an event's organizer may have (`limit_choices_to` and `Evento.clean`). */
  predicate PodeOrganizar(p: Perfil) {
    p == Admin || p == Organizador
  }

  /** The two database CheckConstraints of `Evento`: `evento_data_fim_gte_inicio` and
      `capacidade_positive`. */
  predicate EventoCheckConstraints(e: Evento) {
    e.dataFim >= e.dataInicio && e.capacidade > 0
  }

  const MSG_DATA_FIM_ANTERIOR: string := "Data fim não pode ser anterior à data início."
  const MSG_ORGANIZADOR_PERFIL: string := "Usuário deve ter perfil ADMIN ou ORGANIZADOR."

  /** What `Evento.clean()` does: it returns, raises a `ValidationError`, or raises the
      `RelatedObjectDoesNotExist` of reading the required `organizador` foreign key while it is
      unset. */
  datatype LimpezaEvento = Aceito | Recusado(erro: ValidationError) | SemOrganizador

  /** The date rule of `Evento.clean()`: it applies only when both dates are set. */
  predicate DatasEmOrdem(dataInicio: Option<int>, dataFim: Option<int>) {
    dataInicio.Some? && dataFim.Some? ==> dataFim.value >= dataInicio.value
  }

  /** `Evento.clean()` on a possibly incomplete event. The date order is checked first; only then
      is the organizer read, which raises when it is unset, and its role checked. */
  function EventoClean(dataInicio: Option<int>, dataFim: Option<int>, organizador: Option<Perfil>): (r: LimpezaEvento)
    ensures r.Aceito? <==> DatasEmOrdem(dataInicio, dataFim) && organizador.Some? && PodeOrganizar(organizador.value)
    ensures r.SemOrganizador? <==> DatasEmOrdem(dataInicio, dataFim) && organizador.None?
    ensures !DatasEmOrdem(dataInicio, dataFim) ==> r == Recusado(ErrorDict([("data_fim", [MSG_DATA_FIM_ANTERIOR])]))
    ensures DatasEmOrdem(dataInicio, dataFim) && organizador.Some? && !PodeOrganizar(organizador.value)
      ==> r == Recusado(ErrorDict([("organizador", [MSG_ORGANIZADOR_PERFIL])]))
  {
    if dataFim.Some? && dataInicio.Some? && dataFim.value < dataInicio.value then
      Recusado(ErrorDict([("data_fim", [MSG_DATA_FIM_ANTERIOR])]))
    else if organizador.None? then
      SemOrganizador
    else if organizador.value !in [Admin, Organizador] then
      Recusado(ErrorDict([("organizador", [MSG_ORGANIZADOR_PERFIL])]))
    else
      Aceito
  }

  /** For a complete event, `clean()` plus the positive capacity of the column type accept
      exactly the events the CheckConstraints accept whose organizer may organize. Equal start
      and end dates are accepted. */
  lemma EventoCleanMatchesConstraints(e: Evento, organizador: Perfil)
    ensures (EventoClean(Some(e.dataInicio), Some(e.dataFim), Some(organizador)).Aceito? && e.capacidade > 0)
            <==> (EventoCheckConstraints(e) && PodeOrganizar(organizador))
  {
  }

  // ---------------------------------------------------------------------------
  // Inscricao and the capacity rule
  // ---------------------------------------------------------------------------

  /** A registration row, reconstructed from its uses in `api/tests.py` and the views: its
      primary key, its status, the attendance flag and when it was made. */
  datatype Inscricao = Inscricao(
    id: nat,
    status: InscricaoStatus,
    presencaConfirmada: bool,
    dataInscricao: int)

  /** The confirmed registrations of event `e`. */
  function Confirmadas(inscricoes: map<InscricaoKey, Inscricao>, e: EventId): set<InscricaoKey>
  {
    set k {:trigger k in inscricoes} | k in inscricoes && k.0 == e && inscricoes[k].status == Confirmada
  }

  /** `Evento.vagas_disponiveis`, which `api/tests.py` reads but the repository's `models.py` does
      not define: here the capacity minus the confirmed registrations, not clamped at zero. */
  function VagasDisponiveis(ev: Evento, inscricoes: map<InscricaoKey, Inscricao>, e: EventId): int
  {
    ev.capacidade - |Confirmadas(inscricoes, e)|
  }

  /** No event holds more confirmed registrations than its capacity. */
  ghost predicate CapacidadeRespeitada(eventos: map<EventId, Evento>, inscricoes: map<InscricaoKey, Inscricao>) {
    forall e {:trigger Confirmadas(inscricoes, e)} :: e in eventos ==> |Confirmadas(inscricoes, e)| <= eventos[e].capacidade
  }

  const MSG_CAPACIDADE_ESGOTADA: string := "Capacidade máxima do evento atingida."

  /** Writing `v` at key `k` changes only the confirmed set of `k`'s own event, and there only
      by `k` itself. */
  lemma {:induction false} ConfirmadasAfterWrite(inscricoes: map<InscricaoKey, Inscricao>, k: InscricaoKey, v: Inscricao, e: EventId)
    ensures e != k.0 ==> Confirmadas(inscricoes[k := v], e) == Confirmadas(inscricoes, e)
    ensures e == k.0 && v.status == Confirmada ==>
      Confirmadas(inscricoes[k := v], e) == (Confirmadas(inscricoes, e) - {k}) + {k}
    ensures e == k.0 && v.status != Confirmada ==>
      Confirmadas(inscricoes[k := v], e) == Confirmadas(inscricoes, e) - {k}
  {
    var after := inscricoes[k := v];
    if e != k.0 {
      forall x | x in Confirmadas(after, e) ensures x in Confirmadas(inscricoes, e) {
        assert x != k;
      }
      forall x | x in Confirmadas(inscricoes, e) ensures x in Confirmadas(after, e) {
        assert x != k;
      }
    }
  }

  /** The capacity check a registration save runs (`api/tests.py` expects a `ValidationError`
      from `Inscricao.objects.create`; the class is not in the repository's `models.py`):
      a registration being saved as confirmed needs a free place among the event's confirmed
      registrations other than itself. */
  function InscricaoClean(ev: Evento, inscricoes: map<InscricaoKey, Inscricao>, k: InscricaoKey, v: Inscricao): (r: Option<ValidationError>)
    ensures r.None? <==> (v.status == Confirmada ==> |Confirmadas(inscricoes[k := v], k.0)| <= ev.capacidade)
    ensures v.status != Confirmada ==> r.None?
  {
    ConfirmadasAfterWrite(inscricoes, k, v, k.0);
    if v.status == Confirmada && |Confirmadas(inscricoes, k.0) - {k}| >= ev.capacidade then
      Some(ErrorDict([(NON_FIELD_ERRORS, [MSG_CAPACIDADE_ESGOTADA])]))
    else
      None
  }

  /** Every save that passes the capacity check keeps every event within its capacity. */
  lemma {:induction false} SaveKeepsCapacidade(eventos: map<EventId, Evento>, inscricoes: map<InscricaoKey, Inscricao>, k: InscricaoKey, v: Inscricao)
    requires CapacidadeRespeitada(eventos, inscricoes)
    requires k.0 in eventos && InscricaoClean(eventos[k.0], inscricoes, k, v).None?
    ensures CapacidadeRespeitada(eventos, inscricoes[k := v])
  {
    forall e | e in eventos ensures |Confirmadas(inscricoes[k := v], e)| <= eventos[e].capacidade {
      ConfirmadasAfterWrite(inscricoes, k, v, e);
      if e == k.0 && v.status != Confirmada {
        assert Confirmadas(inscricoes[k := v], e) <= Confirmadas(inscricoes, e);
        SubsetCardinality(Confirmadas(inscricoes[k := v], e), Confirmadas(inscricoes, e));
      }
    }
  }

  lemma SubsetCardinality<T>(a: set<T>, b: set<T>)
    requires a <= b
    ensures |a| <= |b|
  {
    assert b == a + (b - a);
  }

  /** Under the capacity invariant the free places are never negative, so the unclamped
      `capacidade - confirmadas` agrees with a count clamped at zero. */
  lemma VagasNaoNegativas(eventos: map<EventId, Evento>, inscricoes: map<InscricaoKey, Inscricao>, e: EventId)
    requires CapacidadeRespeitada(eventos, inscricoes) && e in eventos
    ensures 0 <= VagasDisponiveis(eventos[e], inscricoes, e) <= eventos[e].capacidade
  {
  }

  /** The scenario of the model tests: on an event of capacity 1 with no registrations there is
      one free place; after one confirmed registration there is none, and a second participant's
      confirmed registration is rejected by the capacity check. */
  lemma CapacidadeUmScenario(ev: Evento, e: EventId, a: UserId, b: UserId, inscricoes: map<InscricaoKey, Inscricao>,
                             ia: nat, ib: nat, data: int)
    requires ev.capacidade == 1 && a != b
    requires forall k :: k in inscricoes ==> k.0 != e
    ensures VagasDisponiveis(ev, inscricoes, e) == 1
    ensures InscricaoClean(ev, inscricoes, (e, a), Inscricao(ia, Confirmada, false, data)).None?
    ensures VagasDisponiveis(ev, inscricoes[(e, a) := Inscricao(ia, Confirmada, false, data)], e) == 0
    ensures InscricaoClean(ev, inscricoes[(e, a) := Inscricao(ia, Confirmada, false, data)], (e, b), Inscricao(ib, Confirmada, false, data)).Some?
  {
    var v := Inscricao(ia, Confirmada, false, data);
    var w := Inscricao(ib, Confirmada, false, data);
    assert Confirmadas(inscricoes, e) == {};
    var m1 := inscricoes[(e, a) := v];
    ConfirmadasAfterWrite(inscricoes, (e, a), v, e);
    assert Confirmadas(m1, e) == {(e, a)};
    ConfirmadasAfterWrite(m1, (e, b), w, e);
    assert Confirmadas(m1[(e, b) := w], e) == {(e, a), (e, b)};
  }

  // ---------------------------------------------------------------------------
  // Certificado and the eligibility rule
  // ---------------------------------------------------------------------------

  datatype Certificado = Certificado(
    codigo: nat,
    emitidoPor: Option<UserId>,
    cargaHoraria: int,
    validade: Option<int>,
    observacoes: string,
    emitidoEm: int)

  /** A registration that may receive a certificate: confirmed, with attendance recorded. */
  predicate Elegivel(i: Inscricao) {
    i.status == Confirmada && i.presencaConfirmada
  }

  const MSG_CERTIFICADO_INELEGIVEL: string := "Certificado exige inscrição confirmada com presença."

  /** The eligibility check a certificate save runs (`api/tests.py` expects a `ValidationError`
      from `Certificado.objects.create` without confirmed attendance; the class is not in the
      repository's `models.py`). */
  function CertificadoClean(i: Inscricao): (r: Option<ValidationError>)
    ensures r.None? <==> i.status == Confirmada && i.presencaConfirmada
  {
    if i.status != Confirmada || !i.presencaConfirmada then
      Some(ErrorDict([(NON_FIELD_ERRORS, [MSG_CERTIFICADO_INELEGIVEL])]))
    else
      None
  }

  /** The scenario of the model tests: a confirmed registration without attendance cannot get a
      certificate; once attendance is recorded it can. */
  lemma CertificadoRequerPresencaScenario(id: nat, data: int)
    ensures CertificadoClean(Inscricao(id, Confirmada, false, data)).Some?
    ensures CertificadoClean(Inscricao(id, Confirmada, false, data).(presencaConfirmada := true)).None?
  {
  }
}
