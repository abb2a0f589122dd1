/** The `emitir_certificados` management command: on day `hoje` it certifies every confirmed
    registration with recorded attendance of an event that ended before that day and has no
    certificate yet, then notifies the participant by mail. Delivering the mail is outside the
    model: `k in entregues` says whether the mail backend accepted the message for registration `k`. */
module EmitirCertificados {
  import opened Wrappers
  import opened Text
  import opened Models
  import opened Store

  /** How the notification mail of a new certificate went. */
  datatype Envio = Enviado | DestinatarioVazio | FalhaEnvio

  /** One notification: the registration whose certificate was issued, and how its mail went. */
  datatype Aviso = Aviso(inscricao: InscricaoKey, envio: Envio)

  /** The closing line of the command: the total, or the warning that there was nothing to issue. */
  datatype Resumo = TotalEmitidos(total: nat) | NenhumNovo

  /** The events that ended before `hoje`. */
  function Finalizados(db: Db, hoje: int): set<EventId> {
    set e | e in db.eventos && db.eventos[e].dataFim < hoje
  }

  /** The registrations of event `e` the command certifies: confirmed, with attendance recorded,
      and without a certificate. */
  function AptasDoEvento(db: Db, e: EventId): set<InscricaoKey> {
    set k | k in db.inscricoes && k.0 == e && Elegivel(db.inscricoes[k]) && k !in db.certificados
  }

  /** Every registration the run of day `hoje` certifies. */
  function Aptas(db: Db, hoje: int): set<InscricaoKey> {
    set k | k in db.inscricoes && k.0 in db.eventos && db.eventos[k.0].dataFim < hoje
            && Elegivel(db.inscricoes[k]) && k !in db.certificados
  }

  /** A certificate as the command creates it: no issuer (the system), the event's hours, no
      validity date, no notes, issued now. */
  predicate EmitidoPeloSistema(c: Certificado, ev: Evento, agora: int) {
    && c.emitidoPor.None?
    && c.cargaHoraria == ev.cargaHoraria
    && c.validade.None?
    && c.observacoes == ""
    && c.emitidoEm == agora
  }

  /** The mail step for a participant with address `email`: an address that is blank once
      stripped is refused before sending; otherwise the outcome is the backend's. */
  function EnvioPara(email: string, entregue: bool): (r: Envio)
    ensures r == DestinatarioVazio <==> IsBlank(email)
    ensures r == Enviado <==> !IsBlank(email) && entregue
  {
    StripSpec(email);
    if Strip(email) == "" then DestinatarioVazio
    else if entregue then Enviado
    else FalhaEnvio
  }

  /** The notification of the new certificate of registration `k`. */
  function AvisoPara(usuarios: map<UserId, Usuario>, k: InscricaoKey, entregues: set<InscricaoKey>): Aviso
    requires k.1 in usuarios
  {
    Aviso(k, EnvioPara(usuarios[k.1].email, k in entregues))
  }

  /** The summary reports the total exactly when something was issued. */
  function ResumoDe(count: nat): (r: Resumo)
    ensures r.TotalEmitidos? <==> count > 0
    ensures r.TotalEmitidos? ==> r.total == count
  {
    if count > 0 then TotalEmitidos(count) else NenhumNovo
  }

  /** `depois` is `antes` plus, for each registration of `feitos`, a certificate as the command
      creates it; nothing else changed. */
  ghost predicate EmitidosSobre(antes: Db, depois: Db, feitos: set<InscricaoKey>, agora: int) {
    && depois.usuarios == antes.usuarios && depois.eventos == antes.eventos && depois.inscricoes == antes.inscricoes
    && depois.certificados.Keys == antes.certificados.Keys + feitos
    && (forall k :: k in antes.certificados ==> depois.certificados[k] == antes.certificados[k])
    && (forall k :: k in feitos ==> k.0 in depois.eventos && EmitidoPeloSistema(depois.certificados[k], depois.eventos[k.0], agora))
  }

  /** One more certificate as the command creates it extends the issued set by its registration. */
  lemma EmitidosPasso(antes: Db, meio: Db, depois: Db, feitos: set<InscricaoKey>, k: InscricaoKey, c: Certificado, agora: int)
    requires EmitidosSobre(antes, meio, feitos, agora)
    requires k !in meio.certificados && k.0 in meio.eventos && EmitidoPeloSistema(c, meio.eventos[k.0], agora)
    requires depois.usuarios == meio.usuarios && depois.eventos == meio.eventos && depois.inscricoes == meio.inscricoes
    requires depois.certificados == meio.certificados[k := c]
    ensures EmitidosSobre(antes, depois, feitos + {k}, agora)
  {
  }

  /** Two batches issued one after the other make one batch. */
  lemma EmitidosComposicao(a: Db, b: Db, c: Db, f1: set<InscricaoKey>, f2: set<InscricaoKey>, agora: int)
    requires EmitidosSobre(a, b, f1, agora) && EmitidosSobre(b, c, f2, agora)
    ensures EmitidosSobre(a, c, f1 + f2, agora)
  {
  }

  /** `avisos` holds one notification per registration of `feitos` and nothing else. */
  ghost predicate AvisosDe(avisos: seq<Aviso>, feitos: set<InscricaoKey>, usuarios: map<UserId, Usuario>, entregues: set<InscricaoKey>) {
    && |avisos| == |feitos|
    && (forall a :: a in avisos ==> a.inscricao in feitos && a.inscricao.1 in usuarios && a == AvisoPara(usuarios, a.inscricao, entregues))
    && (forall k :: k in feitos ==> k.1 in usuarios && AvisoPara(usuarios, k, entregues) in avisos)
  }

  lemma AvisosPasso(avisos: seq<Aviso>, feitos: set<InscricaoKey>, k: InscricaoKey, usuarios: map<UserId, Usuario>, entregues: set<InscricaoKey>)
    requires AvisosDe(avisos, feitos, usuarios, entregues) && k !in feitos && k.1 in usuarios
    ensures AvisosDe(avisos + [AvisoPara(usuarios, k, entregues)], feitos + {k}, usuarios, entregues)
  {
  }

  lemma AvisosConcat(a1: seq<Aviso>, f1: set<InscricaoKey>, a2: seq<Aviso>, f2: set<InscricaoKey>,
                     usuarios: map<UserId, Usuario>, entregues: set<InscricaoKey>)
    requires AvisosDe(a1, f1, usuarios, entregues) && AvisosDe(a2, f2, usuarios, entregues) && f1 !! f2
    ensures AvisosDe(a1 + a2, f1 + f2, usuarios, entregues)
  {
  }

  /** The queryset of the inner loop: the confirmed registrations of event `e` with attendance. */
  function InscricoesAptas(db: Db, e: EventId): set<InscricaoKey> {
    set k | k in db.inscricoes && k.0 == e && Elegivel(db.inscricoes[k])
  }

  /** The state of the inner loop for event `e`: `feitos` were certified since `inicio`, with
      their notifications, and every registration of `AptasDoEvento` that is no longer pending
      is among them. */
  ghost predicate LacoDoEvento(inicio: Db, atual: Db, e: EventId, pendentes: set<InscricaoKey>, feitos: set<InscricaoKey>,
                               avisos: seq<Aviso>, entregues: set<InscricaoKey>, agora: int) {
    && pendentes <= InscricoesAptas(inicio, e)
    && EmitidosSobre(inicio, atual, feitos, agora)
    && feitos <= AptasDoEvento(inicio, e)
    && (forall k :: k in AptasDoEvento(inicio, e) && k !in pendentes ==> k in feitos)
    && (forall k :: k in feitos ==> k !in pendentes)
    && AvisosDe(avisos, feitos, inicio.usuarios, entregues)
  }

  lemma LacoDoEventoInicio(inicio: Db, e: EventId, entregues: set<InscricaoKey>, agora: int)
    ensures LacoDoEvento(inicio, inicio, e, InscricoesAptas(inicio, e), {}, [], entregues, agora)
  {
  }

  /** A pending registration that has a certificate already is skipped. */
  lemma LacoDoEventoPula(inicio: Db, atual: Db, e: EventId, pendentes: set<InscricaoKey>, feitos: set<InscricaoKey>,
                         avisos: seq<Aviso>, entregues: set<InscricaoKey>, agora: int, k: InscricaoKey)
    requires LacoDoEvento(inicio, atual, e, pendentes, feitos, avisos, entregues, agora)
    requires k in pendentes && k in atual.certificados
    ensures LacoDoEvento(inicio, atual, e, pendentes - {k}, feitos, avisos, entregues, agora)
  {
    assert k in inicio.certificados;
  }

  /** A pending registration without a certificate gets one as the command creates it, and its
      notification. */
  lemma LacoDoEventoEmite(inicio: Db, atual: Db, depois: Db, e: EventId, pendentes: set<InscricaoKey>, feitos: set<InscricaoKey>,
                          avisos: seq<Aviso>, entregues: set<InscricaoKey>, agora: int, k: InscricaoKey, c: Certificado)
    requires LacoDoEvento(inicio, atual, e, pendentes, feitos, avisos, entregues, agora)
    requires k in pendentes && k !in atual.certificados && e in atual.eventos && k.1 in inicio.usuarios
    requires depois.usuarios == atual.usuarios && depois.eventos == atual.eventos && depois.inscricoes == atual.inscricoes
    requires depois.certificados == atual.certificados[k := c] && EmitidoPeloSistema(c, atual.eventos[e], agora)
    ensures |feitos + {k}| == |feitos| + 1
    ensures LacoDoEvento(inicio, depois, e, pendentes - {k}, feitos + {k}, avisos + [AvisoPara(inicio.usuarios, k, entregues)], entregues, agora)
  {
    assert k !in feitos && k in AptasDoEvento(inicio, e);
    EmitidosPasso(inicio, atual, depois, feitos, k, c, agora);
    AvisosPasso(avisos, feitos, k, inicio.usuarios, entregues);
  }

  lemma LacoDoEventoFim(inicio: Db, atual: Db, e: EventId, feitos: set<InscricaoKey>,
                        avisos: seq<Aviso>, entregues: set<InscricaoKey>, agora: int)
    requires LacoDoEvento(inicio, atual, e, {}, feitos, avisos, entregues, agora)
    ensures feitos == AptasDoEvento(inicio, e)
  {
  }

  /** The inner loop of `handle` for the finished event `e`: every eligible registration without
      a certificate gets one and a notification, whatever happens to the mail. */
  method EmitirDoEvento(db: Database, e: EventId, agora: int, entregues: set<InscricaoKey>)
    returns (emitidos: nat, avisos: seq<Aviso>)
    requires db.Valid() && e in db.eventos
    modifies db
    ensures db.Valid()
    ensures EmitidosSobre(old(db.Snapshot()), db.Snapshot(), AptasDoEvento(old(db.Snapshot()), e), agora)
    ensures emitidos == |AptasDoEvento(old(db.Snapshot()), e)|
    ensures AvisosDe(avisos, AptasDoEvento(old(db.Snapshot()), e), db.usuarios, entregues)
  {
    var usuarios := db.usuarios;
    ghost var inicio := db.Snapshot();
    var pendentes := InscricoesAptas(db.Snapshot(), e);
    ghost var feitos: set<InscricaoKey> := {};
    emitidos, avisos := 0, [];
    LacoDoEventoInicio(inicio, e, entregues, agora);
    while pendentes != {}
      invariant db.Valid()
      invariant usuarios == inicio.usuarios && emitidos == |avisos|
      invariant LacoDoEvento(inicio, db.Snapshot(), e, pendentes, feitos, avisos, entregues, agora)
      decreases pendentes
    {
      var k :| k in pendentes;
      if k !in db.certificados {
        ghost var antes := db.Snapshot();
        var criado := db.CreateCertificado(k, None, db.eventos[e].cargaHoraria, None, "", agora);
        LacoDoEventoEmite(inicio, antes, db.Snapshot(), e, pendentes, feitos, avisos, entregues, agora, k, db.certificados[k]);
        feitos := feitos + {k};
        emitidos := emitidos + 1;
        avisos := avisos + [AvisoPara(usuarios, k, entregues)];
      } else {
        LacoDoEventoPula(inicio, db.Snapshot(), e, pendentes, feitos, avisos, entregues, agora, k);
      }
      pendentes := pendentes - {k};
    }
    LacoDoEventoFim(inicio, db.Snapshot(), e, feitos, avisos, entregues, agora);
  }

  /** The state of the outer loop: `feitos` were certified since `inicio`, with their
      notifications, and they are exactly the registrations of `Aptas` whose event is no longer
      pending. */
  ghost predicate LacoDaVarredura(inicio: Db, atual: Db, hoje: int, restantes: set<EventId>, feitos: set<InscricaoKey>,
                                  avisos: seq<Aviso>, entregues: set<InscricaoKey>, agora: int) {
    && restantes <= Finalizados(inicio, hoje)
    && EmitidosSobre(inicio, atual, feitos, agora)
    && feitos <= Aptas(inicio, hoje)
    && (forall k :: k in Aptas(inicio, hoje) && k.0 !in restantes ==> k in feitos)
    && (forall k :: k in feitos ==> k.0 !in restantes)
    && AvisosDe(avisos, feitos, inicio.usuarios, entregues)
  }

  lemma LacoDaVarreduraInicio(inicio: Db, hoje: int, entregues: set<InscricaoKey>, agora: int)
    ensures LacoDaVarredura(inicio, inicio, hoje, Finalizados(inicio, hoje), {}, [], entregues, agora)
  {
  }

  /** Processing the finished event `e` adds its batch to the certified registrations. */
  lemma LacoDaVarreduraPasso(inicio: Db, antes: Db, depois: Db, hoje: int, restantes: set<EventId>, feitos: set<InscricaoKey>,
                             avisos: seq<Aviso>, novos: seq<Aviso>, entregues: set<InscricaoKey>, agora: int, e: EventId)
    requires LacoDaVarredura(inicio, antes, hoje, restantes, feitos, avisos, entregues, agora)
    requires e in restantes
    requires EmitidosSobre(antes, depois, AptasDoEvento(antes, e), agora)
    requires AvisosDe(novos, AptasDoEvento(antes, e), antes.usuarios, entregues)
    ensures LacoDaVarredura(inicio, depois, hoje, restantes - {e}, feitos + AptasDoEvento(antes, e), avisos + novos, entregues, agora)
  {
    LoteDoEvento(inicio, antes, hoje, e, Aptas(inicio, hoje), feitos, agora);
    EmitidosComposicao(inicio, antes, depois, feitos, AptasDoEvento(antes, e), agora);
    AvisosConcat(avisos, feitos, novos, AptasDoEvento(antes, e), inicio.usuarios, entregues);
  }

  /** When no event is left, every target was certified and nothing is left to certify. */
  lemma LacoDaVarreduraFim(inicio: Db, atual: Db, hoje: int, feitos: set<InscricaoKey>,
                           avisos: seq<Aviso>, entregues: set<InscricaoKey>, agora: int)
    requires LacoDaVarredura(inicio, atual, hoje, {}, feitos, avisos, entregues, agora)
    ensures feitos == Aptas(inicio, hoje)
    ensures Aptas(atual, hoje) == {}
  {
    assert feitos == Aptas(inicio, hoje);
    FimDaVarredura(inicio, atual, hoje, agora);
  }

  /** One turn of the outer loop of `handle`: the finished event `e` is processed and its batch
      `lote` joins the certified registrations, with one notification each. */
  method VarrerEvento(db: Database, ghost inicio: Db, hoje: int, e: EventId, ghost restantes: set<EventId>,
                      ghost feitos: set<InscricaoKey>, ghost avisos: seq<Aviso>, entregues: set<InscricaoKey>, agora: int)
    returns (n: nat, novos: seq<Aviso>, ghost lote: set<InscricaoKey>)
    requires db.Valid() && e in restantes
    requires LacoDaVarredura(inicio, db.Snapshot(), hoje, restantes, feitos, avisos, entregues, agora)
    modifies db
    ensures db.Valid() && n == |novos|
    ensures LacoDaVarredura(inicio, db.Snapshot(), hoje, restantes - {e}, feitos + lote, avisos + novos, entregues, agora)
  {
    ghost var antes := db.Snapshot();
    assert e in db.eventos;
    n, novos := EmitirDoEvento(db, e, agora, entregues);
    lote := AptasDoEvento(antes, e);
    LacoDaVarreduraPasso(inicio, antes, db.Snapshot(), hoje, restantes, feitos, avisos, novos, entregues, agora, e);
  }

  /** `Command.handle` on day `hoje`: every registration of `Aptas` gets exactly one certificate as
      the command creates it, certificates that existed are left alone, and each new certificate
      is followed by its notification. A failed or refused mail removes nothing and stops
      nothing. Afterwards nothing is left to certify, so a second run on the same day issues
      nothing. */
  method Handle(db: Database, hoje: int, agora: int, entregues: set<InscricaoKey>)
    returns (count: nat, avisos: seq<Aviso>, resumo: Resumo)
    requires db.Valid()
    modifies db
    ensures db.Valid()
    ensures EmitidosSobre(old(db.Snapshot()), db.Snapshot(), Aptas(old(db.Snapshot()), hoje), agora)
    ensures count == |Aptas(old(db.Snapshot()), hoje)|
    ensures AvisosDe(avisos, Aptas(old(db.Snapshot()), hoje), db.usuarios, entregues)
    ensures resumo == ResumoDe(count)
    ensures Aptas(db.Snapshot(), hoje) == {}
  {
    ghost var inicio := db.Snapshot();
    var restantes := Finalizados(db.Snapshot(), hoje);
    ghost var feitos: set<InscricaoKey> := {};
    count, avisos := 0, [];
    LacoDaVarreduraInicio(inicio, hoje, entregues, agora);
    while restantes != {}
      invariant db.Valid()
      invariant count == |avisos|
      invariant LacoDaVarredura(inicio, db.Snapshot(), hoje, restantes, feitos, avisos, entregues, agora)
      decreases restantes
    {
      var e :| e in restantes;
      var n, novos, lote := VarrerEvento(db, inicio, hoje, e, restantes, feitos, avisos, entregues, agora);
      feitos := feitos + lote;
      count := count + n;
      avisos := avisos + novos;
      restantes := restantes - {e};
    }
    LacoDaVarreduraFim(inicio, db.Snapshot(), hoje, feitos, avisos, entregues, agora);
    resumo := ResumoDe(count);
  }

  /** Before the finished event `e` is processed, its batch is exactly its part of the run's
      target, and none of it was certified yet. */
  lemma LoteDoEvento(inicio: Db, antes: Db, hoje: int, e: EventId, alvo: set<InscricaoKey>,
                     feitos: set<InscricaoKey>, agora: int)
    requires EmitidosSobre(inicio, antes, feitos, agora)
    requires e in antes.eventos && antes.eventos[e].dataFim < hoje
    requires alvo == Aptas(inicio, hoje)
    requires forall k :: k in feitos ==> k.0 != e
    ensures AptasDoEvento(antes, e) == set k | k in alvo && k.0 == e
    ensures feitos !! AptasDoEvento(antes, e)
  {
  }

  /** After every target was certified, nothing is left to certify. */
  lemma FimDaVarredura(inicio: Db, fim: Db, hoje: int, agora: int)
    requires EmitidosSobre(inicio, fim, Aptas(inicio, hoje), agora)
    ensures Aptas(fim, hoje) == {}
  {
  }
}
