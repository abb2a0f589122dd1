/** The REST endpoints: the role-scoped querysets of the generic views, the access decision DRF
    takes from a view's permission classes and queryset, self-registration, cancelling and
    deleting a registration, and the activity report. A request is made by a `Principal`; the
    authenticated principal is a user of the store with the role stored for it. */
module Endpoints {
  import opened Wrappers
  import opened Models
  import opened Store
  import opened Permissions

  /** An API response, by HTTP outcome: 200 with a body, 201 with a body, 204 without one,
      `NotAuthenticated`, 403 with its detail, 404, 400 naming the serializer field that was
      refused, or 500 (an uncaught database error). The body of a registration written through
      `InscricaoSerializer` is that serializer's one field, the event. */
  datatype Resposta<T> =
    | Ok(corpo: T)
    | Criado(corpo: T)
    | SemConteudo
    | NaoAutenticado
    | Proibido(detalhe: string)
    | NaoEncontrado
    | CampoRejeitado(campo: string)
    | ErroServidor

  /** DRF's default detail for a refused permission. */
  const MSG_SEM_PERMISSAO: string := "You do not have permission to perform this action."
  const MSG_ORGANIZADOR_NAO_INSCREVE: string := "Organizadores não podem se inscrever em eventos."
  const MSG_CANCELAMENTO_NEGADO: string := "Você não tem permissão para cancelar esta inscrição."

  /** The authenticated principal is a stored user with the stored role. */
  predicate UsuarioDaSessao(db: Db, p: Principal) {
    p.Autenticado? ==> p.id in db.usuarios && db.usuarios[p.id].perfil == p.perfil
  }

  /** DRF's answer when a permission class refuses: `NotAuthenticated` for the anonymous user,
      403 otherwise. */
  function Recusa<T>(p: Principal): (r: Resposta<T>)
    ensures r.NaoAutenticado? <==> p.Anonimo?
    ensures !r.NaoAutenticado? ==> r == Proibido(MSG_SEM_PERMISSAO)
  {
    if p.Anonimo? then NaoAutenticado else Proibido(MSG_SEM_PERMISSAO)
  }

  function Min(a: int, b: int): int {
    if a <= b then a else b
  }

  // ---------------------------------------------------------------------------
  // Events
  // ---------------------------------------------------------------------------

  /** The events organized by `uid`. */
  function EventosDe(eventos: map<EventId, Evento>, uid: UserId): set<EventId> {
    set e | e in eventos && eventos[e].organizador == uid
  }

  /** `EventoListView.get_queryset`: students and professors see every event, an organizer only
      the events they organize, anybody else every event. */
  function EventosListados(eventos: map<EventId, Evento>, uid: UserId, perfil: Perfil): (r: set<EventId>)
    ensures forall e :: e in r <==> e in eventos && (perfil == Organizador ==> eventos[e].organizador == uid)
    ensures r == EventosDoEscopo(eventos, uid, perfil)
  {
    if perfil in {Aluno, Professor} then eventos.Keys
    else if perfil == Organizador then EventosDe(eventos, uid)
    else eventos.Keys
  }

  /** The queryset of `EventoDetailView`, `EventoUpdateView` and `EventoDeleteView`: an organizer's
      own events, every event for anybody else. */
  function EventosDoEscopo(eventos: map<EventId, Evento>, uid: UserId, perfil: Perfil): set<EventId> {
    if perfil == Organizador then EventosDe(eventos, uid) else eventos.Keys
  }

  /** What an update or delete request on event `pk` reaches: `CanManageEvents`, then the lookup
      in the scoped queryset (404 outside it), then the object check. */
  function GestaoEvento(eventos: map<EventId, Evento>, p: Principal, pk: EventId): Resposta<EventId> {
    if !CanManageEventsHasPermission(p) then Recusa(p)
    else if pk !in EventosDoEscopo(eventos, p.id, p.perfil) then NaoEncontrado
    else if !CanManageEventsHasObjectPermission(p.id, p.perfil, eventos[pk].organizador) then Proibido(MSG_SEM_PERMISSAO)
    else Ok(pk)
  }

  /** An event can be updated or deleted by an admin, or by the organizer who owns it, and by
      nobody else. The object check never refuses what the scoped queryset lets through: an
      organizer reaching another organizer's event gets 404, not 403. */
  lemma GestaoEventoSpec(eventos: map<EventId, Evento>, p: Principal, pk: EventId)
    ensures GestaoEvento(eventos, p, pk).Ok? <==>
      p.Autenticado? && pk in eventos && (p.perfil == Admin || (p.perfil == Organizador && eventos[pk].organizador == p.id))
    ensures GestaoEvento(eventos, p, pk).Ok? ==> GestaoEvento(eventos, p, pk).corpo == pk
    ensures IsOrganizadorOrAdmin(p) ==> !GestaoEvento(eventos, p, pk).Proibido?
    ensures IsOrganizador(p) && pk in eventos && eventos[pk].organizador != p.id ==> GestaoEvento(eventos, p, pk) == NaoEncontrado
  {
  }

  // ---------------------------------------------------------------------------
  // Self-registration
  // ---------------------------------------------------------------------------

  /** `InscricaoCreateView.perform_create` once the serializer accepted event `evento`: an
      organizer is refused; anybody else gets a registration of their own (the serializer sets
      the participant to the requester) with the column defaults, pending and without
      attendance. A second registration for the same pair breaks the unique constraint, which
      the view does not catch. */
  method CriarPropriaInscricao(db: Database, uid: UserId, perfil: Perfil, evento: EventId, agora: int)
    returns (r: Resposta<EventId>)
    requires db.Valid() && evento in db.eventos && uid in db.usuarios
    modifies db
    ensures db.Valid()
    ensures perfil == Organizador ==> r == Proibido(MSG_ORGANIZADOR_NAO_INSCREVE) && db.Snapshot() == old(db.Snapshot())
    ensures perfil != Organizador && (evento, uid) in old(db.inscricoes) ==>
      r == ErroServidor && db.Snapshot() == old(db.Snapshot())
    ensures perfil != Organizador && (evento, uid) !in old(db.inscricoes) ==>
      && r == Criado(evento)
      && db.Snapshot() == old(db.Snapshot()).(
           inscricoes := old(db.inscricoes)[(evento, uid) := Inscricao(old(db.proximoInscricao), Pendente, false, agora)],
           proximoInscricao := old(db.proximoInscricao) + 1)
  {
    if perfil == Organizador {
      return Proibido(MSG_ORGANIZADOR_NAO_INSCREVE);
    }
    var criada := db.CreateInscricao((evento, uid), Pendente, false, agora);
    if criada.Failure? {
      return ErroServidor;
    }
    r := Criado(evento);
  }

  /** `InscricaoCreateView` on a `POST` naming event `evento`: `CanRegisterForEvents`, then the
      serializer's check that the event exists, then `perform_create`. Only a student or a
      professor ever gets a registration, and it is always their own. */
  method InscricaoCreate(db: Database, p: Principal, evento: int, agora: int) returns (r: Resposta<EventId>)
    requires db.Valid() && UsuarioDaSessao(db.Snapshot(), p)
    modifies db
    ensures db.Valid()
    ensures !CanRegisterForEventsHasPermission(p) ==> r == Recusa(p)
    ensures CanRegisterForEventsHasPermission(p) && (evento < 0 || evento !in old(db.eventos)) ==> r == CampoRejeitado("evento")
    ensures IsOrganizador(p) ==> r == Proibido(MSG_SEM_PERMISSAO)
    ensures !r.Criado? ==> db.Snapshot() == old(db.Snapshot())
    ensures r.Criado? ==>
      && p.Autenticado? && p.perfil in {Aluno, Professor} && evento >= 0 && r.corpo == evento
      && (evento, p.id) !in old(db.inscricoes)
      && db.inscricoes == old(db.inscricoes)[(evento, p.id) := Inscricao(old(db.proximoInscricao), Pendente, false, agora)]
      && db.proximoInscricao == old(db.proximoInscricao) + 1
      && db.eventos == old(db.eventos) && db.usuarios == old(db.usuarios) && db.certificados == old(db.certificados)
  {
    if !CanRegisterForEventsHasPermission(p) {
      return Recusa(p);
    }
    if evento < 0 || evento !in db.eventos {
      return CampoRejeitado("evento");
    }
    r := CriarPropriaInscricao(db, p.id, p.perfil, evento, agora);
  }

  // ---------------------------------------------------------------------------
  // Registration querysets
  // ---------------------------------------------------------------------------

  /** The rows of a table keyed by registration whose participant is `uid`: the queryset of
      `MinhasInscricoesListView` (`participante=user`) over the registrations and of
      `MeusCertificadosListView` (`inscricao__participante=user`) over the certificates. */
  function DoParticipante<V>(linhas: map<InscricaoKey, V>, uid: UserId): (r: set<InscricaoKey>)
    ensures r <= linhas.Keys
    ensures forall k :: k in linhas ==> (k in r <==> k.1 == uid)
  {
    set k | k in linhas && k.1 == uid
  }

  /** The registrations on events organized by `uid`. */
  function InscricoesDosEventosDe(db: Db, uid: UserId): set<InscricaoKey> {
    set k | k in db.inscricoes && k.0 in db.eventos && db.eventos[k.0].organizador == uid
  }

  /** `InscricaoUpdateView.get_queryset`: an organizer reaches the registrations on their own
      events, anybody else every registration. */
  function InscricoesGeridas(db: Db, uid: UserId, perfil: Perfil): (r: set<InscricaoKey>)
    ensures r <= db.inscricoes.Keys
    ensures forall k :: k in db.inscricoes ==>
      (k in r <==> perfil != Organizador || (k.0 in db.eventos && db.eventos[k.0].organizador == uid))
  {
    if perfil == Organizador then InscricoesDosEventosDe(db, uid) else db.inscricoes.Keys
  }

  /** `InscricaoDeleteView.get_queryset`: students and professors reach their own registrations,
      an organizer those on their own events, anybody else every registration. */
  function InscricoesExcluiveis(db: Db, uid: UserId, perfil: Perfil): (r: set<InscricaoKey>)
    ensures r <= db.inscricoes.Keys
    ensures forall k :: k in db.inscricoes ==>
      (k in r <==>
        if perfil in {Aluno, Professor} then k.1 == uid
        else if perfil == Organizador then k.0 in db.eventos && db.eventos[k.0].organizador == uid
        else true)
  {
    if perfil in {Aluno, Professor} then DoParticipante(db.inscricoes, uid)
    else if perfil == Organizador then InscricoesDosEventosDe(db, uid)
    else db.inscricoes.Keys
  }

  /** `ParticipantesListView.get_queryset`: the students and professors. */
  function Participantes(usuarios: map<UserId, Usuario>): (r: set<UserId>)
    ensures forall u :: u in r <==> u in usuarios && usuarios[u].perfil in {Aluno, Professor}
  {
    set u | u in usuarios && usuarios[u].perfil in {Aluno, Professor}
  }

  /** `EventoInscricoesListView` for event `evento`: `IsOrganizadorOrAdmin`, then the event lookup,
      restricted to the requester's events for an organizer; the body is the event's
      registrations. */
  function InscricoesDoEvento(db: Db, p: Principal, evento: EventId): Resposta<set<InscricaoKey>> {
    if !IsOrganizadorOrAdmin(p) then Recusa(p)
    else if p.perfil == Organizador && evento !in EventosDe(db.eventos, p.id) then NaoEncontrado
    else if evento !in db.eventos then NaoEncontrado
    else Ok(set k | k in db.inscricoes && k.0 == evento)
  }

  /** An admin lists the registrations of any event, an organizer only those of an event they
      organize; the list holds exactly the event's registrations. */
  lemma InscricoesDoEventoSpec(db: Db, p: Principal, evento: EventId)
    ensures InscricoesDoEvento(db, p, evento).Ok? <==>
      IsOrganizadorOrAdmin(p) && evento in db.eventos && (p.perfil == Organizador ==> db.eventos[evento].organizador == p.id)
    ensures InscricoesDoEvento(db, p, evento).Ok? ==>
      forall k :: k in InscricoesDoEvento(db, p, evento).corpo <==> k in db.inscricoes && k.0 == evento
  {
  }

  // ---------------------------------------------------------------------------
  // Cancelling and deleting a registration
  // ---------------------------------------------------------------------------

  /** `InscricaoCancelView.post` on registration `pk`: an authenticated requester, the lookup
      (404), then the inline check — the participant, an admin, or the organizer of the event —
      and finally the status set to cancelled and saved. Attendance and every other field stay
      as they were. */
  method CancelarInscricao(db: Database, p: Principal, pk: nat) returns (r: Resposta<EventId>)
    requires db.Valid() && UsuarioDaSessao(db.Snapshot(), p)
    modifies db
    ensures db.Valid()
    ensures p.Anonimo? ==> r == NaoAutenticado
    ensures p.Autenticado? && InscricaoComId(old(db.inscricoes), pk).None? ==> r == NaoEncontrado
    ensures r.Ok? <==>
      && p.Autenticado?
      && InscricaoComId(old(db.inscricoes), pk).Some?
      && var k := InscricaoComId(old(db.inscricoes), pk).value;
         CanCancelInscricaoHasObjectPermission(p.id, p.perfil, k.1, old(db.eventos)[k.0].organizador)
    ensures !r.Ok? && p.Autenticado? && InscricaoComId(old(db.inscricoes), pk).Some? ==> r == Proibido(MSG_CANCELAMENTO_NEGADO)
    ensures !r.Ok? ==> db.Snapshot() == old(db.Snapshot())
    ensures r.Ok? ==>
      var k := InscricaoComId(old(db.inscricoes), pk).value;
      && r.corpo == k.0
      && db.Snapshot() == old(db.Snapshot()).(inscricoes := old(db.inscricoes)[k := old(db.inscricoes)[k].(status := Cancelada)])
  {
    if p.Anonimo? {
      return NaoAutenticado;
    }
    var achada := InscricaoComId(db.inscricoes, pk);
    if achada.None? {
      return NaoEncontrado;
    }
    var k := achada.value;
    var podeCancelar := false;
    if k.1 == p.id {
      podeCancelar := true;
    } else if p.perfil == Admin {
      podeCancelar := true;
    } else if p.perfil == Organizador && db.eventos[k.0].organizador == p.id {
      podeCancelar := true;
    }
    if !podeCancelar {
      return Proibido(MSG_CANCELAMENTO_NEGADO);
    }
    var invalida := db.UpdateInscricao(k, Cancelada, db.inscricoes[k].presencaConfirmada);
    r := Ok(k.0);
  }

  /** What a delete request on registration `pk` reaches in `InscricaoDeleteView`: an
      authenticated requester, the lookup in the scoped queryset (404 outside it), then the
      `CanCancelInscricao` object check. `Ok` carries the registration reached, which the view
      then deletes. */
  function ExclusaoInscricao(db: Db, p: Principal, pk: nat): Resposta<InscricaoKey>
    requires Consistent(db)
  {
    if !CanCancelInscricaoHasPermission(p) then Recusa(p)
    else match InscricaoComId(db.inscricoes, pk)
      case None => NaoEncontrado
      case Some(k) =>
        if k !in InscricoesExcluiveis(db, p.id, p.perfil) then NaoEncontrado
        else if !CanCancelInscricaoHasObjectPermission(p.id, p.perfil, k.1, db.eventos[k.0].organizador) then Proibido(MSG_SEM_PERMISSAO)
        else Ok(k)
  }

  /** Who may delete a registration: an admin any, an organizer those on their own events, and any
      other role only their own. A visitor's queryset holds every registration, so for a visitor
      it is the object check that refuses (403) what is not theirs; an organizer reaching a
      registration outside their events gets 404 even when they are the participant. */
  lemma ExclusaoInscricaoSpec(db: Db, p: Principal, pk: nat)
    requires Consistent(db)
    ensures ExclusaoInscricao(db, p, pk).Ok? <==>
      && p.Autenticado?
      && InscricaoComId(db.inscricoes, pk).Some?
      && var k := InscricaoComId(db.inscricoes, pk).value;
         || p.perfil == Admin
         || (p.perfil == Organizador && db.eventos[k.0].organizador == p.id)
         || (p.perfil in {Aluno, Professor, Visitante} && k.1 == p.id)
    ensures ExclusaoInscricao(db, p, pk).Ok? ==> ExclusaoInscricao(db, p, pk).corpo == InscricaoComId(db.inscricoes, pk).value
    ensures (p.Autenticado? && p.perfil == Visitante && InscricaoComId(db.inscricoes, pk).Some?
             && InscricaoComId(db.inscricoes, pk).value.1 != p.id) ==> ExclusaoInscricao(db, p, pk) == Proibido(MSG_SEM_PERMISSAO)
  {
    if p.Autenticado? && InscricaoComId(db.inscricoes, pk).Some? {
      var k := InscricaoComId(db.inscricoes, pk).value;
      assert k in db.inscricoes && k.0 in db.eventos;
      if p.perfil == Organizador {
        assert k in InscricoesExcluiveis(db, p.id, p.perfil) <==> db.eventos[k.0].organizador == p.id;
      } else if p.perfil in {Aluno, Professor} {
        assert k in InscricoesExcluiveis(db, p.id, p.perfil) <==> k.1 == p.id;
      }
    }
  }

  /** `InscricaoDeleteView.delete` on registration `pk`: when the request reaches the
      registration, it is deleted together with its certificate and the answer is 204 without a
      body; otherwise the refusal of the decision. */
  method ExcluirInscricao(db: Database, p: Principal, pk: nat) returns (r: Resposta<InscricaoKey>)
    requires db.Valid() && UsuarioDaSessao(db.Snapshot(), p)
    modifies db
    ensures db.Valid()
    ensures var d := ExclusaoInscricao(old(db.Snapshot()), p, pk);
      !d.Ok? ==> r == d && db.Snapshot() == old(db.Snapshot())
    ensures var d := ExclusaoInscricao(old(db.Snapshot()), p, pk);
      d.Ok? ==>
        && r == SemConteudo
        && db.Snapshot() == old(db.Snapshot()).(inscricoes := old(db.inscricoes) - {d.corpo}, certificados := old(db.certificados) - {d.corpo})
  {
    var d := ExclusaoInscricao(db.Snapshot(), p, pk);
    if d.Ok? {
      db.DeleteInscricao(d.corpo);
      r := SemConteudo;
    } else {
      r := d;
    }
  }

  // ---------------------------------------------------------------------------
  // Certificates
  // ---------------------------------------------------------------------------

  /** `CertificadoDetailView.get_queryset`: students and professors reach their own certificates,
      an organizer those on their own events, anybody else every certificate. */
  function CertificadosVisiveis(db: Db, uid: UserId, perfil: Perfil): (r: set<InscricaoKey>)
    ensures r <= db.certificados.Keys
    ensures forall k :: k in db.certificados ==>
      (k in r <==>
        if perfil in {Aluno, Professor} then k.1 == uid
        else if perfil == Organizador then k.0 in db.eventos && db.eventos[k.0].organizador == uid
        else true)
  {
    if perfil in {Aluno, Professor} then DoParticipante(db.certificados, uid)
    else if perfil == Organizador then set k | k in db.certificados && k.0 in db.eventos && db.eventos[k.0].organizador == uid
    else db.certificados.Keys
  }

  /** What a request for the certificate of registration `k` reaches in `CertificadoDetailView`:
      an authenticated requester, the lookup in the scoped queryset (404), then the
      `CanViewCertificados` object check. */
  function ConsultaCertificado(db: Db, p: Principal, k: InscricaoKey): Resposta<InscricaoKey>
    requires Consistent(db)
  {
    if !CanViewCertificadosHasPermission(p) then Recusa(p)
    else if k !in CertificadosVisiveis(db, p.id, p.perfil) then NaoEncontrado
    else if !CanViewCertificadosHasObjectPermission(p.id, p.perfil, k.1, db.eventos[k.0].organizador) then Proibido(MSG_SEM_PERMISSAO)
    else Ok(k)
  }

  /** A certificate is visible to an admin, to the organizer of its event, and to any other role
      only when it is theirs: the same people who may delete the registration. */
  lemma ConsultaCertificadoSpec(db: Db, p: Principal, k: InscricaoKey)
    requires Consistent(db)
    ensures ConsultaCertificado(db, p, k).Ok? <==>
      && p.Autenticado? && k in db.certificados
      && (|| p.perfil == Admin
          || (p.perfil == Organizador && db.eventos[k.0].organizador == p.id)
          || (p.perfil in {Aluno, Professor, Visitante} && k.1 == p.id))
  {
    if p.Autenticado? && k in db.certificados {
      assert k in db.inscricoes && k.0 in db.eventos;
    }
  }

  // ---------------------------------------------------------------------------
  // Activity report
  // ---------------------------------------------------------------------------

  /** One line of the activity report. */
  datatype Atividade =
    | EventoCriado(timestamp: int, detalhes: string, organizador: string)
    | InscricaoCriada(timestamp: int, detalhes: string, status: InscricaoStatus)

  /** The report body: the requester's username and role, and the lines. */
  datatype Relatorio = Relatorio(usuario: string, perfil: Perfil, logs: seq<Atividade>)

  /** `titulo or tipo`: the title, or the stored type value when there is no title. */
  function NomeEvento(ev: Evento): string {
    if ev.titulo != "" then ev.titulo else ev.tipo.Value()
  }

  function AtividadeEvento(ev: Evento, organizador: Usuario): Atividade {
    EventoCriado(ev.criadoEm, "Evento \"" + NomeEvento(ev) + "\" criado", organizador.nome)
  }

  function AtividadeInscricao(i: Inscricao, participante: Usuario, ev: Evento): Atividade {
    InscricaoCriada(i.dataInscricao, participante.nome + " inscrito em " + NomeEvento(ev), i.status)
  }

  /** The report lines for the events `ids`, in order. */
  function AtividadesEventos(db: Db, ids: seq<EventId>): (r: seq<Atividade>)
    requires forall e :: e in ids ==> e in db.eventos && db.eventos[e].organizador in db.usuarios
    ensures |r| == |ids|
    ensures forall i :: 0 <= i < |ids| ==> r[i] == AtividadeEvento(db.eventos[ids[i]], db.usuarios[db.eventos[ids[i]].organizador])
  {
    if ids == [] then []
    else
      var e := ids[|ids| - 1];
      AtividadesEventos(db, ids[..|ids| - 1]) + [AtividadeEvento(db.eventos[e], db.usuarios[db.eventos[e].organizador])]
  }

  /** The report lines for the registrations `ks`, in order. */
  function AtividadesInscricoes(db: Db, ks: seq<InscricaoKey>): (r: seq<Atividade>)
    requires forall k :: k in ks ==> k in db.inscricoes && k.0 in db.eventos && k.1 in db.usuarios
    ensures |r| == |ks|
    ensures forall i :: 0 <= i < |ks| ==> r[i] == AtividadeInscricao(db.inscricoes[ks[i]], db.usuarios[ks[i].1], db.eventos[ks[i].0])
  {
    if ks == [] then []
    else
      var k := ks[|ks| - 1];
      AtividadesInscricoes(db, ks[..|ks| - 1]) + [AtividadeInscricao(db.inscricoes[k], db.usuarios[k.1], db.eventos[k.0])]
  }

  /** The lines run from the most recent to the oldest. */
  predicate MaisRecentesPrimeiro(logs: seq<Atividade>) {
    forall i, j :: 0 <= i < j < |logs| ==> logs[i].timestamp >= logs[j].timestamp
  }

  /** Places `x` after every line at least as recent, before the first older one. */
  function Inserir(ordenados: seq<Atividade>, x: Atividade): (r: seq<Atividade>)
    requires MaisRecentesPrimeiro(ordenados)
    ensures MaisRecentesPrimeiro(r)
    ensures |r| == |ordenados| + 1
    ensures multiset(r) == multiset(ordenados) + multiset{x}
    ensures r[0] == x || (ordenados != [] && r[0] == ordenados[0])
    decreases |ordenados|
  {
    if ordenados == [] then [x]
    else if ordenados[0].timestamp < x.timestamp then [x] + ordenados
    else
      var resto := Inserir(ordenados[1..], x);
      assert ordenados == [ordenados[0]] + ordenados[1..];
      assert resto[0].timestamp <= ordenados[0].timestamp;
      NaFrente(ordenados[0], resto);
      [ordenados[0]] + resto
  }

  /** A line no older than the head of a newest-first list may go in front of it. */
  lemma NaFrente(y: Atividade, logs: seq<Atividade>)
    requires MaisRecentesPrimeiro(logs)
    requires logs != [] ==> logs[0].timestamp <= y.timestamp
    ensures MaisRecentesPrimeiro([y] + logs)
  {
    var r := [y] + logs;
    forall i, j | 0 <= i < j < |r| ensures r[i].timestamp >= r[j].timestamp {
      if i == 0 {
        assert r[j] == logs[j - 1];
      } else {
        assert r[i] == logs[i - 1] && r[j] == logs[j - 1];
      }
    }
  }

  /** `sorted(logs, key=timestamp, reverse=True)`: the same lines, most recent first. */
  function OrdenarPorData(logs: seq<Atividade>): (r: seq<Atividade>)
    ensures MaisRecentesPrimeiro(r)
    ensures |r| == |logs|
    ensures multiset(r) == multiset(logs)
  {
    if logs == [] then []
    else
      assert logs == logs[..|logs| - 1] + [logs[|logs| - 1]];
      Inserir(OrdenarPorData(logs[..|logs| - 1]), logs[|logs| - 1])
  }

  /** `ordem` lists the events `escopo`, each once, from the most recently created: what
      `order_by('-criado_em')` returns for that queryset. */
  predicate ListagemEventos(db: Db, ordem: seq<EventId>, escopo: set<EventId>)
    requires escopo <= db.eventos.Keys
  {
    && (forall i, j :: 0 <= i < j < |ordem| ==> ordem[i] != ordem[j])
    && (forall i :: 0 <= i < |ordem| ==> ordem[i] in escopo)
    && (forall e :: e in escopo ==> e in ordem)
    && (forall i, j :: 0 <= i < j < |ordem| && ordem[i] in escopo && ordem[j] in escopo ==>
          db.eventos[ordem[i]].criadoEm >= db.eventos[ordem[j]].criadoEm)
  }

  /** `ordem` lists the registrations `escopo`, each once, from the most recent: what
      `order_by('-data_inscricao')` returns for that queryset. */
  predicate ListagemInscricoes(db: Db, ordem: seq<InscricaoKey>, escopo: set<InscricaoKey>)
    requires escopo <= db.inscricoes.Keys
  {
    && (forall i, j :: 0 <= i < j < |ordem| ==> ordem[i] != ordem[j])
    && (forall i :: 0 <= i < |ordem| ==> ordem[i] in escopo)
    && (forall k :: k in escopo ==> k in ordem)
    && (forall i, j :: 0 <= i < j < |ordem| && ordem[i] in escopo && ordem[j] in escopo ==>
          db.inscricoes[ordem[i]].dataInscricao >= db.inscricoes[ordem[j]].dataInscricao)
  }

  /** `AuditLogView.get`: `IsOrganizadorOrAdmin`; then the ten most recent events and the ten
      most recent registrations the requester may see (an organizer only those of their own
      events), one line each, merged and sorted most recent first. `ordemEventos` and
      `ordemInscricoes` are the database's answers to the two ordered queries. */
  method AuditLogGet(db: Database, p: Principal, ordemEventos: seq<EventId>, ordemInscricoes: seq<InscricaoKey>)
    returns (r: Resposta<Relatorio>)
    requires db.Valid() && UsuarioDaSessao(db.Snapshot(), p)
    requires p.Autenticado? ==> ListagemEventos(db.Snapshot(), ordemEventos, EventosDoEscopo(db.eventos, p.id, p.perfil))
    requires p.Autenticado? ==> ListagemInscricoes(db.Snapshot(), ordemInscricoes, InscricoesGeridas(db.Snapshot(), p.id, p.perfil))
    ensures !IsOrganizadorOrAdmin(p) ==> r == Recusa(p)
    ensures IsOrganizadorOrAdmin(p) ==>
      && r.Ok?
      && r.corpo.usuario == db.usuarios[p.id].username && r.corpo.perfil == p.perfil
      && MaisRecentesPrimeiro(r.corpo.logs)
      && |r.corpo.logs| == Min(|ordemEventos|, 10) + Min(|ordemInscricoes|, 10)
      && multiset(r.corpo.logs) ==
           multiset(AtividadesEventos(db.Snapshot(), ordemEventos[..Min(|ordemEventos|, 10)])
                    + AtividadesInscricoes(db.Snapshot(), ordemInscricoes[..Min(|ordemInscricoes|, 10)]))
  {
    if !IsOrganizadorOrAdmin(p) {
      return Recusa(p);
    }
    var snap := db.Snapshot();
    ListagensNoBanco(snap, p, ordemEventos, ordemInscricoes);
    var logs := LinhasDoRelatorio(snap, ordemEventos[..Min(|ordemEventos|, 10)], ordemInscricoes[..Min(|ordemInscricoes|, 10)]);
    r := Ok(Relatorio(snap.usuarios[p.id].username, p.perfil, OrdenarPorData(logs)));
  }

  /** The two loops of `AuditLogView.get`: one line per event, then one per registration, each
      appended in listing order. */
  method LinhasDoRelatorio(db: Db, eventos: seq<EventId>, inscricoes: seq<InscricaoKey>) returns (logs: seq<Atividade>)
    requires forall e :: e in eventos ==> e in db.eventos && db.eventos[e].organizador in db.usuarios
    requires forall k :: k in inscricoes ==> k in db.inscricoes && k.0 in db.eventos && k.1 in db.usuarios
    ensures logs == AtividadesEventos(db, eventos) + AtividadesInscricoes(db, inscricoes)
  {
    logs := LinhasDeEventos(db, eventos);
    logs := LinhasDeInscricoes(db, inscricoes, logs);
  }

  /** The loop over the events: one line per event, in listing order. */
  method LinhasDeEventos(db: Db, eventos: seq<EventId>) returns (logs: seq<Atividade>)
    requires forall e :: e in eventos ==> e in db.eventos && db.eventos[e].organizador in db.usuarios
    ensures logs == AtividadesEventos(db, eventos)
  {
    logs := [];
    var i := 0;
    while i < |eventos|
      invariant 0 <= i <= |eventos|
      invariant logs == AtividadesEventos(db, eventos[..i])
    {
      var ev := db.eventos[eventos[i]];
      logs := logs + [AtividadeEvento(ev, db.usuarios[ev.organizador])];
      assert eventos[..i + 1][..i] == eventos[..i];
      i := i + 1;
    }
    assert eventos[..i] == eventos;
  }

  /** The loop over the registrations: appends one line per registration to `logs`, in listing
      order. */
  method LinhasDeInscricoes(db: Db, inscricoes: seq<InscricaoKey>, inicio: seq<Atividade>) returns (logs: seq<Atividade>)
    requires forall k :: k in inscricoes ==> k in db.inscricoes && k.0 in db.eventos && k.1 in db.usuarios
    ensures logs == inicio + AtividadesInscricoes(db, inscricoes)
  {
    logs := inicio;
    var j := 0;
    while j < |inscricoes|
      invariant 0 <= j <= |inscricoes|
      invariant logs == inicio + AtividadesInscricoes(db, inscricoes[..j])
    {
      var k := inscricoes[j];
      logs := logs + [AtividadeInscricao(db.inscricoes[k], db.usuarios[k.1], db.eventos[k.0])];
      assert inscricoes[..j + 1][..j] == inscricoes[..j];
      j := j + 1;
    }
    assert inscricoes[..j] == inscricoes;
  }

  /** Every event and registration the two listings return is stored, with its organizer,
      participant and event. */
  lemma ListagensNoBanco(db: Db, p: Principal, ordemEventos: seq<EventId>, ordemInscricoes: seq<InscricaoKey>)
    requires Consistent(db) && p.Autenticado?
    requires ListagemEventos(db, ordemEventos, EventosDoEscopo(db.eventos, p.id, p.perfil))
    requires ListagemInscricoes(db, ordemInscricoes, InscricoesGeridas(db, p.id, p.perfil))
    ensures forall e :: e in ordemEventos ==> e in db.eventos && db.eventos[e].organizador in db.usuarios
    ensures forall k :: k in ordemInscricoes ==> k in db.inscricoes && k.0 in db.eventos && k.1 in db.usuarios
  {
  }

  /** The report's first ten events are the ten most recent the requester may see: every event in
      scope left out is no more recent than any listed one, and every listed event is in scope. */
  lemma {:induction false} PrimeirosSaoOsMaisRecentes(db: Db, ordem: seq<EventId>, escopo: set<EventId>, n: nat)
    requires escopo <= db.eventos.Keys && ListagemEventos(db, ordem, escopo) && n <= |ordem|
    ensures forall i :: 0 <= i < n ==> ordem[i] in escopo
    ensures forall e, i :: e in escopo && e !in ordem[..n] && 0 <= i < n ==> db.eventos[e].criadoEm <= db.eventos[ordem[i]].criadoEm
  {
    forall e, i | e in escopo && e !in ordem[..n] && 0 <= i < n
      ensures db.eventos[e].criadoEm <= db.eventos[ordem[i]].criadoEm
    {
      var j :| 0 <= j < |ordem| && ordem[j] == e;
      assert forall m :: 0 <= m < n ==> ordem[..n][m] == ordem[m];
      assert n <= j;
      assert ordem[i] in escopo;
    }
  }
}
