/** The audit trail: how an entry's fields are derived from the request and the caller's
    arguments (`log_action`), and which action and description each `log_*` helper records.
    The store write that persists an entry may fail; the failure is swallowed and the trail is
    left as it was. */
module Audit {
  import opened Wrappers
  import opened Models
  import opened Permissions

  /** The kinds of audited action. */
  datatype AcaoAuditoria =
    | UsuarioCriado
    | EventoCriado
    | EventoAtualizado
    | EventoExcluido
    | EventoConsultadoApi
    | InscricaoCriada
    | InscricaoAtualizada
    | InscricaoCancelada
    | CertificadoGerado
    | CertificadoConsultado
    | CertificadoConsultadoApi
    | Login
    | Logout

  /** A value of the JSON extra-data payload. */
  datatype Valor = Texto(s: string) | Inteiro(n: int) | Nulo | Lista(itens: seq<string>)

  /** The incoming request as the audit code sees it: its `META` headers and `request.user`. */
  datatype Requisicao = Requisicao(meta: map<string, string>, usuario: Principal)

  /** What a `log_*` helper passes to `log_action` besides the request. */
  datatype Lancamento = Lancamento(
    acao: AcaoAuditoria,
    usuario: Option<UserId>,
    usuarioAfetado: Option<UserId>,
    evento: Option<EventId>,
    inscricao: Option<nat>,
    certificado: Option<InscricaoKey>,
    descricao: string,
    dadosExtras: Option<map<string, Valor>>)

  /** A row of the audit trail. */
  datatype EntradaAuditoria = EntradaAuditoria(
    acao: AcaoAuditoria,
    usuario: Option<UserId>,
    usuarioAfetado: Option<UserId>,
    evento: Option<EventId>,
    inscricao: Option<nat>,
    certificado: Option<InscricaoKey>,
    descricao: string,
    ipAddress: Option<string>,
    userAgent: string,
    dadosExtras: Option<map<string, Valor>>,
    criadoEm: int)

  const USER_AGENT_MAX: nat := 255

  // ---------------------------------------------------------------------------
  // Field derivation
  // ---------------------------------------------------------------------------

  /** `s.split(',')[0]`: the longest prefix of `s` without a comma. */
  function AntesDaVirgula(s: string): (r: string)
    ensures r <= s
    ensures ',' !in r
    ensures |r| < |s| ==> s[|r|] == ','
  {
    if s == [] || s[0] == ',' then []
    else
      var t := AntesDaVirgula(s[1..]);
      assert s == [s[0]] + s[1..];
      [s[0]] + t
  }

  /** The three properties of `AntesDaVirgula` pin its result down: any prefix without a comma
      that reaches the end of `s` or a comma is that result. */
  lemma {:induction false} AntesDaVirgulaUnica(s: string, p: string)
    requires p <= s && ',' !in p && (|p| < |s| ==> s[|p|] == ',')
    ensures p == AntesDaVirgula(s)
  {
    if s != [] && s[0] != ',' {
      assert p != [];
      assert p[1..] <= s[1..];
      assert forall c :: c in p[1..] ==> c in p;
      AntesDaVirgulaUnica(s[1..], p[1..]);
      assert p == [p[0]] + p[1..];
    }
  }

  /** `get_client_ip`: the text before the first comma of a non-empty `X-Forwarded-For`
      header, otherwise `REMOTE_ADDR` when the server set it. */
  function GetClientIp(req: Requisicao): (r: Option<string>)
    ensures "HTTP_X_FORWARDED_FOR" in req.meta && req.meta["HTTP_X_FORWARDED_FOR"] != "" ==>
      && r.Some?
      && r.value <= req.meta["HTTP_X_FORWARDED_FOR"] && ',' !in r.value
      && (|r.value| < |req.meta["HTTP_X_FORWARDED_FOR"]| ==> req.meta["HTTP_X_FORWARDED_FOR"][|r.value|] == ',')
    ensures !("HTTP_X_FORWARDED_FOR" in req.meta && req.meta["HTTP_X_FORWARDED_FOR"] != "") ==>
      r == (if "REMOTE_ADDR" in req.meta then Some(req.meta["REMOTE_ADDR"]) else None)
  {
    if "HTTP_X_FORWARDED_FOR" in req.meta && req.meta["HTTP_X_FORWARDED_FOR"] != "" then
      Some(AntesDaVirgula(req.meta["HTTP_X_FORWARDED_FOR"]))
    else if "REMOTE_ADDR" in req.meta then Some(req.meta["REMOTE_ADDR"])
    else None
  }

  /** The recorded IP: the client IP when there is a request, nothing otherwise. */
  function IpDe(req: Option<Requisicao>): Option<string> {
    if req.Some? then GetClientIp(req.value) else None
  }

  /** The recorded user agent: the first 255 characters of the header, or `""` when the header
      or the request is missing. */
  function UserAgentDe(req: Option<Requisicao>): (r: string)
    ensures |r| <= USER_AGENT_MAX
    ensures req.None? || "HTTP_USER_AGENT" !in req.value.meta ==> r == ""
    ensures req.Some? && "HTTP_USER_AGENT" in req.value.meta ==> r <= req.value.meta["HTTP_USER_AGENT"]
    ensures req.Some? && "HTTP_USER_AGENT" in req.value.meta && |req.value.meta["HTTP_USER_AGENT"]| <= USER_AGENT_MAX ==>
      r == req.value.meta["HTTP_USER_AGENT"]
    ensures req.Some? && "HTTP_USER_AGENT" in req.value.meta && |req.value.meta["HTTP_USER_AGENT"]| > USER_AGENT_MAX ==>
      |r| == USER_AGENT_MAX
  {
    if req.None? then ""
    else
      var ua := if "HTTP_USER_AGENT" in req.value.meta then req.value.meta["HTTP_USER_AGENT"] else "";
      if |ua| <= USER_AGENT_MAX then ua else ua[..USER_AGENT_MAX]
  }

  /** The recorded actor: the caller's `usuario` when given; otherwise the authenticated user of
      the request, if any. */
  function AtorDe(usuario: Option<UserId>, req: Option<Requisicao>): (r: Option<UserId>)
    ensures usuario.Some? ==> r == usuario
    ensures usuario.None? && req.Some? && req.value.usuario.Autenticado? ==> r == Some(req.value.usuario.id)
    ensures usuario.None? && (req.None? || req.value.usuario.Anonimo?) ==> r.None?
  {
    if usuario.Some? then usuario
    else if req.Some? && req.value.usuario.Autenticado? then Some(req.value.usuario.id)
    else None
  }

  /** The entry `log_action` writes for lancamento `l` under request `req` at time `agora`. */
  function EntradaDe(l: Lancamento, req: Option<Requisicao>, agora: int): EntradaAuditoria {
    EntradaAuditoria(l.acao, AtorDe(l.usuario, req), l.usuarioAfetado, l.evento, l.inscricao, l.certificado,
                     l.descricao, IpDe(req), UserAgentDe(req), l.dadosExtras, agora)
  }

  /** The audit trail, append-only. */
  class RegistroAuditoria {
    var entradas: seq<EntradaAuditoria>

    constructor ()
      ensures entradas == []
    {
      entradas := [];
    }

    /** `log_action`: derives the IP, the user agent and the actor from the request, then
        writes the entry. `falhaNoBanco` says whether the write fails; the failure is swallowed,
        so the call always returns and the trail is then unchanged. */
    method LogAction(l: Lancamento, req: Option<Requisicao>, agora: int, falhaNoBanco: bool)
      modifies this
      ensures falhaNoBanco ==> entradas == old(entradas)
      ensures !falhaNoBanco ==> entradas == old(entradas) + [EntradaDe(l, req, agora)]
    {
      var ipAddress: Option<string> := None;
      var userAgent := "";
      var usuario := l.usuario;
      if req.Some? {
        ipAddress := GetClientIp(req.value);
        var header := if "HTTP_USER_AGENT" in req.value.meta then req.value.meta["HTTP_USER_AGENT"] else "";
        userAgent := if |header| <= USER_AGENT_MAX then header else header[..USER_AGENT_MAX];
        if usuario.None? && req.value.usuario.Autenticado? {
          usuario := Some(req.value.usuario.id);
        }
      }
      if !falhaNoBanco {
        entradas := entradas + [EntradaAuditoria(l.acao, usuario, l.usuarioAfetado, l.evento, l.inscricao, l.certificado,
                                                 l.descricao, ipAddress, userAgent, l.dadosExtras, agora)];
      }
    }
  }

  // ---------------------------------------------------------------------------
  // Text of the descriptions
  // ---------------------------------------------------------------------------

  /** `str(n)` for a non-negative integer. */
  function Decimal(n: nat): (r: string)
    ensures |r| >= 1
    ensures forall i :: 0 <= i < |r| ==> '0' <= r[i] <= '9'
  {
    var d := ['0' + (n % 10) as char];
    if n < 10 then d else Decimal(n / 10) + d
  }

  /** `str(n)` for any integer. */
  function DecimalInt(n: int): string {
    if n < 0 then "-" + Decimal(-n) else Decimal(n)
  }

  /** Python's `str()` of an extra-data value as an f-string prints it. */
  function Str(v: Valor): string {
    match v
    case Texto(s) => s
    case Inteiro(n) => DecimalInt(n)
    case Nulo => "None"
    case Lista(itens) => "[" + Repr(itens) + "]"
  }

  /** The items of a list of strings as Python prints them, quoted and separated by `, `. */
  function Repr(itens: seq<string>): string {
    if itens == [] then ""
    else if |itens| == 1 then "'" + itens[0] + "'"
    else "'" + itens[0] + "', " + Repr(itens[1..])
  }

  /** `titulo or get_tipo_display()`: the title, or the type's label when there is no title. */
  function NomeEvento(ev: Evento): string {
    if ev.titulo != "" then ev.titulo else ev.tipo.Label()
  }

  /** Every event has a name: its title, or else a type label, and no label is empty. */
  lemma NomeEventoNaoVazio(ev: Evento)
    ensures NomeEvento(ev) != ""
    ensures ev.titulo != "" ==> NomeEvento(ev) == ev.titulo
  {
  }

  /** `'x'`: a name between single quotes, as the descriptions print it. */
  function Aspas(x: string): string {
    "'" + x + "'"
  }

  // ---------------------------------------------------------------------------
  // Reading a description back
  // ---------------------------------------------------------------------------

  /** `s` ends with `sufixo`. */
  predicate TerminaCom(s: string, sufixo: string) {
    |sufixo| <= |s| && s[|s| - |sufixo|..] == sufixo
  }

  /** `t` occurs in `s`. */
  ghost predicate Contem(s: string, t: string) {
    exists i :: 0 <= i <= |s| && t <= s[i..]
  }

  /** The position of the first single quote of `s`, or `|s|` when it has none. */
  function PrimeiraAspa(s: string): (r: nat)
    ensures r <= |s|
    ensures forall i :: 0 <= i < r ==> s[i] != '\''
    ensures r < |s| ==> s[r] == '\''
  {
    if s == [] || s[0] == '\'' then 0 else 1 + PrimeiraAspa(s[1..])
  }

  /** `s` up to its last single quote, or nothing when it has none. */
  function AteUltimaAspa(s: string): (r: string)
    ensures |r| < |s| || s == []
  {
    if s == [] then []
    else if s[|s| - 1] == '\'' then s[..|s| - 1]
    else AteUltimaAspa(s[..|s| - 1])
  }

  /** The text between the first and the last single quote of `s`: the name a description
      quotes, read back. */
  function Citacao(s: string): string {
    var i := PrimeiraAspa(s);
    if i < |s| then AteUltimaAspa(s[i + 1..]) else ""
  }

  lemma {:induction false} AteUltimaAspaSemAspas(x: string, q: string)
    requires '\'' !in q
    ensures AteUltimaAspa(x + "'" + q) == x
  {
    if q != [] {
      assert (x + "'" + q)[..|x + "'" + q| - 1] == x + "'" + q[..|q| - 1];
      assert q[|q| - 1] in q;
      AteUltimaAspaSemAspas(x, q[..|q| - 1]);
    } else {
      assert (x + "'")[..|x + "'"| - 1] == x;
    }
  }

  /** A name quoted once, between texts without quotes, is read back exactly, whatever
      characters (quotes included) it holds. */
  lemma CitacaoDe(p: string, x: string, q: string)
    requires '\'' !in p && '\'' !in q
    ensures Citacao(p + Aspas(x) + q) == x
  {
    var s := p + Aspas(x) + q;
    assert s[|p|] == '\'';
    var i := PrimeiraAspa(s);
    assert i == |p|;
    assert s[i + 1..] == x + "'" + q;
    AteUltimaAspaSemAspas(x, q);
  }

  /** The same for a quoted name that ends the text. */
  lemma CitacaoFinal(p: string, x: string)
    requires '\'' !in p
    ensures Citacao(p + Aspas(x)) == x
  {
    CitacaoDe(p, x, "");
    assert p + Aspas(x) + "" == p + Aspas(x);
  }

  lemma TerminaComFim(a: string, t: string)
    ensures TerminaCom(a + t, t)
  {
    assert (a + t)[|a + t| - |t|..] == t;
  }

  predicate Digito(c: char) {
    '0' <= c <= '9'
  }

  /** The value of a string of decimal digits. */
  function ValorDecimal(d: string): nat {
    if d == [] then 0
    else 10 * ValorDecimal(d[..|d| - 1]) + (if Digito(d[|d| - 1]) then (d[|d| - 1] as int - '0' as int) else 0)
  }

  /** The digits that end `s`. */
  function DigitosFinais(s: string): string {
    if s == [] || !Digito(s[|s| - 1]) then [] else DigitosFinais(s[..|s| - 1]) + [s[|s| - 1]]
  }

  /** `str()` of a code reads back as that code. */
  lemma {:induction false} ValorDecimalDe(n: nat)
    ensures ValorDecimal(Decimal(n)) == n
  {
    var d := Decimal(n);
    if n >= 10 {
      assert d[..|d| - 1] == Decimal(n / 10);
      ValorDecimalDe(n / 10);
    }
  }

  /** After a text that does not end with a digit, the trailing digits are exactly `d`. */
  lemma {:induction false} DigitosFinaisApos(a: string, d: string)
    requires a != [] && !Digito(a[|a| - 1])
    requires forall i :: 0 <= i < |d| ==> Digito(d[i])
    ensures DigitosFinais(a + d) == d
  {
    if d != [] {
      assert (a + d)[..|a + d| - 1] == a + d[..|d| - 1];
      DigitosFinaisApos(a, d[..|d| - 1]);
      assert d == d[..|d| - 1] + [d[|d| - 1]];
    } else {
      assert a + d == a;
    }
  }

  /** The certificate code as the description prints it. */
  function CodigoTexto(c: Certificado): string {
    Decimal(c.codigo)
  }

  // ---------------------------------------------------------------------------
  // The log_* helpers
  // ---------------------------------------------------------------------------

  /** No profile label has a quote in it. */
  lemma RotuloSemAspas(p: Perfil)
    ensures '\'' !in p.Label()
  {
    match p
    case Aluno =>
    case Professor =>
    case Organizador =>
    case Admin =>
    case Visitante =>
  }

  /** `log_usuario_criado`: the creator is the actor (or the request user), the new user the
      affected one, and the quoted name in the description is the new user's username. */
  function LogUsuarioCriado(criado: UserId, u: Usuario, criadoPor: Option<UserId>): (r: Lancamento)
    ensures r.acao == UsuarioCriado && r.usuario == criadoPor && r.usuarioAfetado == Some(criado)
    ensures r.dadosExtras.None?
    ensures Citacao(r.descricao) == u.username
  {
    var resto := " (" + u.perfil.Label() + ") criado";
    RotuloSemAspas(u.perfil);
    CitacaoDe("Novo usuário ", u.username, resto);
    Lancamento(UsuarioCriado, criadoPor, Some(criado), None, None, None,
               "Novo usuário " + Aspas(u.username) + resto, None)
  }

  /** `log_evento_criado`: the description quotes the event's name; the extra data gives back
      its type, place, capacity and start date, written by `isoformat` (the parameter `iso`). */
  function LogEventoCriado(id: EventId, ev: Evento, iso: int -> string): (r: Lancamento)
    ensures r.acao == EventoCriado && r.evento == Some(id) && r.usuario.None?
    ensures Citacao(r.descricao) == NomeEvento(ev) != ""
    ensures r.dadosExtras.Some? && r.dadosExtras.value.Keys == {"tipo", "local", "capacidade", "data_inicio"}
    ensures ParseTipoEvento(Str(r.dadosExtras.value["tipo"])) == Some(ev.tipo)
    ensures r.dadosExtras.value["local"] == Texto(ev.local)
    ensures r.dadosExtras.value["capacidade"] == Inteiro(ev.capacidade)
    ensures r.dadosExtras.value["data_inicio"] == Texto(iso(ev.dataInicio))
  {
    NomeEventoNaoVazio(ev);
    CitacaoDe("Evento ", NomeEvento(ev), " criado");
    ParseTipoEventoValue(ev.tipo);
    Lancamento(EventoCriado, None, None, Some(id), None, None,
               "Evento " + Aspas(NomeEvento(ev)) + " criado",
               Some(map["tipo" := Texto(ev.tipo.Value()), "local" := Texto(ev.local),
                        "capacidade" := Inteiro(ev.capacidade), "data_inicio" := Texto(iso(ev.dataInicio))]))
  }

  /** `log_evento_atualizado`: the description quotes the event's name; the names of the fields
      the request changed go in the extra data, which is left out when none changed. */
  function LogEventoAtualizado(id: EventId, ev: Evento, camposAlterados: seq<string>): (r: Lancamento)
    ensures r.acao == EventoAtualizado && r.evento == Some(id)
    ensures Citacao(r.descricao) == NomeEvento(ev)
    ensures r.dadosExtras.None? <==> camposAlterados == []
    ensures r.dadosExtras.Some? ==> r.dadosExtras.value == map["campos_alterados" := Lista(camposAlterados)]
  {
    CitacaoDe("Evento ", NomeEvento(ev), " atualizado");
    Lancamento(EventoAtualizado, None, None, Some(id), None, None,
               "Evento " + Aspas(NomeEvento(ev)) + " atualizado",
               if camposAlterados != [] then Some(map["campos_alterados" := Lista(camposAlterados)]) else None)
  }

  /** The `evento_info` dictionary `EventoDeleteView.perform_destroy` captures before deleting:
      id, type, title, place and both dates, the dates written by `isoformat` (the parameter
      `iso`). The end date is always set, so its `None` branch never applies. */
  function InfoEventoExcluido(id: EventId, ev: Evento, iso: int -> string): (r: map<string, Valor>)
    ensures r.Keys == {"id", "tipo", "titulo", "local", "data_inicio", "data_fim"}
    ensures r["id"] == Inteiro(id) && ParseTipoEvento(Str(r["tipo"])) == Some(ev.tipo)
    ensures r["titulo"] == Texto(ev.titulo) && r["local"] == Texto(ev.local)
    ensures r["data_inicio"] == Texto(iso(ev.dataInicio)) && r["data_fim"] == Texto(iso(ev.dataFim))
  {
    ParseTipoEventoValue(ev.tipo);
    map["id" := Inteiro(id), "tipo" := Texto(ev.tipo.Value()), "titulo" := Texto(ev.titulo),
        "local" := Texto(ev.local), "data_inicio" := Texto(iso(ev.dataInicio)), "data_fim" := Texto(iso(ev.dataFim))]
  }

  /** The captured dictionary identifies the deleted event: since `isoformat` writes distinct
      dates differently, two events with the same dictionary have the same id, type, title, place
      and dates. */
  lemma InfoEventoExcluidoIdentifica(id1: EventId, ev1: Evento, id2: EventId, ev2: Evento, iso: int -> string)
    requires forall d1, d2 :: iso(d1) == iso(d2) ==> d1 == d2
    requires InfoEventoExcluido(id1, ev1, iso) == InfoEventoExcluido(id2, ev2, iso)
    ensures id1 == id2 && ev1.tipo == ev2.tipo && ev1.titulo == ev2.titulo && ev1.local == ev2.local
    ensures ev1.dataInicio == ev2.dataInicio && ev1.dataFim == ev2.dataFim
  {
    var a, b := InfoEventoExcluido(id1, ev1, iso), InfoEventoExcluido(id2, ev2, iso);
    assert a["tipo"] == b["tipo"];
    assert Some(ev1.tipo) == ParseTipoEvento(Str(a["tipo"])) == Some(ev2.tipo);
    assert a["id"] == b["id"] && a["titulo"] == b["titulo"] && a["local"] == b["local"];
    assert a["data_inicio"] == b["data_inicio"] && a["data_fim"] == b["data_fim"];
  }

  /** `dict.get(chave, padrao)`. */
  function Get(info: map<string, Valor>, chave: string, padrao: Valor): Valor {
    if chave in info then info[chave] else padrao
  }

  /** Python truthiness of an extra-data value. */
  predicate Verdadeiro(v: Valor) {
    match v
    case Texto(s) => s != ""
    case Inteiro(n) => n != 0
    case Nulo => false
    case Lista(itens) => itens != []
  }

  /** `log_evento_excluido` as written: the name is `info.get('titulo', info.get('tipo'))`, which
      falls back to the type only when the dictionary has no `titulo` key at all. */
  function LogEventoExcluidoComoEscrito(info: map<string, Valor>): (r: Lancamento)
    ensures r.acao == EventoExcluido && r.dadosExtras == Some(info)
    ensures "titulo" in info ==> r.descricao == "Evento '" + Str(info["titulo"]) + "' excluído"
  {
    Lancamento(EventoExcluido, None, None, None, None, None,
               "Evento '" + Str(Get(info, "titulo", Get(info, "tipo", Nulo))) + "' excluído", Some(info))
  }

  /** The dictionary always carries `titulo`, so for an event without a title the as-written
      description names nothing: `Evento '' excluído`. */
  lemma EventoSemTituloExcluidoSemNome(id: EventId, ev: Evento, iso: int -> string)
    requires ev.titulo == ""
    ensures LogEventoExcluidoComoEscrito(InfoEventoExcluido(id, ev, iso)).descricao == "Evento '' excluído"
    ensures LogEventoExcluido(InfoEventoExcluido(id, ev, iso)).descricao
            == "Evento '" + ev.tipo.Value() + "' excluído"
  {
  }

  /** `log_evento_excluido` as evidently intended, in the `titulo or tipo` shape of the other
      helpers: the title when it is set, the type otherwise. */
  function LogEventoExcluido(info: map<string, Valor>): (r: Lancamento)
    ensures r.acao == EventoExcluido && r.dadosExtras == Some(info)
    ensures "titulo" in info && Verdadeiro(info["titulo"]) ==> r.descricao == "Evento '" + Str(info["titulo"]) + "' excluído"
    ensures !("titulo" in info && Verdadeiro(info["titulo"])) ==> r.descricao == "Evento '" + Str(Get(info, "tipo", Nulo)) + "' excluído"
  {
    var nome := if "titulo" in info && Verdadeiro(info["titulo"]) then info["titulo"] else Get(info, "tipo", Nulo);
    Lancamento(EventoExcluido, None, None, None, None, None, "Evento '" + Str(nome) + "' excluído", Some(info))
  }

  /** For a deleted event the intended description always names it: by title when it has one,
      by type otherwise. */
  lemma EventoExcluidoSempreNomeado(id: EventId, ev: Evento, iso: int -> string)
    ensures LogEventoExcluido(InfoEventoExcluido(id, ev, iso)).descricao
            == "Evento '" + (if ev.titulo != "" then ev.titulo else ev.tipo.Value()) + "' excluído"
  {
  }

  /** `log_evento_consultado_api`: one event, named in the description, or the list when no
      event is given. */
  function LogEventoConsultadoApi(evento: Option<(EventId, Evento)>): (r: Lancamento)
    ensures r.acao == EventoConsultadoApi
    ensures evento.Some? ==> r.evento == Some(evento.value.0) && TerminaCom(r.descricao, NomeEvento(evento.value.1))
    ensures evento.None? ==> r.evento.None? && r.descricao == "Consulta de lista de eventos via API"
  {
    match evento
    case None => Lancamento(EventoConsultadoApi, None, None, None, None, None, "Consulta de lista de eventos via API", None)
    case Some((id, ev)) =>
      var d := "Consulta de evento via API: " + NomeEvento(ev);
      assert d[|d| - |NomeEvento(ev)|..] == NomeEvento(ev);
      Lancamento(EventoConsultadoApi, None, None, Some(id), None, None, d, None)
  }

  /** A query for the list is never described like a query for one event. */
  lemma ConsultaDeListaDistinta(id: EventId, ev: Evento)
    ensures LogEventoConsultadoApi(None).descricao != LogEventoConsultadoApi(Some((id, ev))).descricao
  {
    assert LogEventoConsultadoApi(None).descricao[12] == 'l';
    assert LogEventoConsultadoApi(Some((id, ev))).descricao[12] == 'e';
  }

  /** The description `log_inscricao_criada` writes: the participant's and the event's quoted
      names. */
  function DescricaoInscricaoCriada(nome: string, evento: string): string {
    "Inscrição de " + Aspas(nome) + " no evento " + Aspas(evento)
  }

  /** `log_inscricao_criada`: the participant is the affected user, and the description quotes
      both the participant's name and the event's; the status goes in the extra data. */
  function LogInscricaoCriada(k: InscricaoKey, i: Inscricao, participante: Usuario, ev: Evento): (r: Lancamento)
    ensures r.acao == InscricaoCriada && r.usuario.None?
    ensures r.usuarioAfetado == Some(k.1) && r.evento == Some(k.0) && r.inscricao == Some(i.id)
    ensures Contem(r.descricao, Aspas(participante.nome)) && TerminaCom(r.descricao, Aspas(NomeEvento(ev)))
    ensures r.dadosExtras.Some? && r.dadosExtras.value.Keys == {"status"}
    ensures ParseInscricaoStatus(Str(r.dadosExtras.value["status"])) == Some(i.status)
  {
    var cabeca, meio := "Inscrição de ", " no evento ";
    ContemEntre(cabeca, Aspas(participante.nome), meio, Aspas(NomeEvento(ev)));
    TerminaComFim(cabeca + Aspas(participante.nome) + meio, Aspas(NomeEvento(ev)));
    ParseInscricaoStatusValue(i.status);
    Lancamento(InscricaoCriada, None, Some(k.1), Some(k.0), Some(i.id), None,
               DescricaoInscricaoCriada(participante.nome, NomeEvento(ev)),
               Some(map["status" := Texto(i.status.Value())]))
  }

  /** The description of an updated registration without the status change. */
  function DescricaoAtualizada(participante: Usuario): string {
    "Inscrição de " + Aspas(participante.nome) + " atualizada"
  }

  /** The description of an updated registration with the status change: the previous status,
      an arrow and the new status's label, in parentheses. */
  function DescricaoMudancaStatus(base: string, anterior: string, novo: string): string {
    base + " (status: " + anterior + " → " + (novo + ")")
  }

  /** `log_inscricao_atualizada`: the status change is described only when the previous status
      is given (a non-empty string), with the previous status inside and the new status's label
      at the end; both statuses go in the extra data. */
  function LogInscricaoAtualizada(k: InscricaoKey, i: Inscricao, participante: Usuario, statusAnterior: Option<string>): (r: Lancamento)
    ensures r.acao == InscricaoAtualizada && r.usuarioAfetado == Some(k.1) && r.inscricao == Some(i.id)
    ensures DescricaoAtualizada(participante) <= r.descricao
    ensures r.descricao == DescricaoAtualizada(participante) <==> statusAnterior.None? || statusAnterior.value == ""
    ensures statusAnterior.Some? && statusAnterior.value != "" ==>
      Contem(r.descricao, statusAnterior.value) && TerminaCom(r.descricao, i.status.Label() + ")")
    ensures r.dadosExtras.Some? && r.dadosExtras.value.Keys == {"status_anterior", "status_novo"}
    ensures r.dadosExtras.value["status_anterior"] == if statusAnterior.Some? then Texto(statusAnterior.value) else Nulo
    ensures r.dadosExtras.value["status_novo"] == Texto(i.status.Value())
  {
    var base := DescricaoAtualizada(participante);
    var descricao := if statusAnterior.Some? && statusAnterior.value != "" then
        ContemEntre(base + " (status: ", statusAnterior.value, " → ", i.status.Label() + ")");
        TerminaComFim(base + " (status: " + statusAnterior.value + " → ", i.status.Label() + ")");
        DescricaoMudancaStatus(base, statusAnterior.value, i.status.Label())
      else base;
    assert descricao != base ==> |descricao| > |base|;
    Lancamento(InscricaoAtualizada, None, Some(k.1), Some(k.0), Some(i.id), None, descricao,
               Some(map["status_anterior" := (if statusAnterior.Some? then Texto(statusAnterior.value) else Nulo),
                        "status_novo" := Texto(i.status.Value())]))
  }

  /** The description `log_inscricao_cancelada` writes: the participant's quoted name followed
      by "cancelada", then the event's quoted name. */
  function DescricaoInscricaoCancelada(nome: string, evento: string): string {
    "Inscrição de " + (Aspas(nome) + " cancelada") + " no evento " + Aspas(evento)
  }

  /** `log_inscricao_cancelada`: the description quotes both the participant's name and the
      event's, and says the registration was cancelled. */
  function LogInscricaoCancelada(k: InscricaoKey, i: Inscricao, participante: Usuario, ev: Evento): (r: Lancamento)
    ensures r.acao == InscricaoCancelada && r.usuarioAfetado == Some(k.1) && r.evento == Some(k.0) && r.inscricao == Some(i.id)
    ensures Contem(r.descricao, Aspas(participante.nome) + " cancelada") && TerminaCom(r.descricao, Aspas(NomeEvento(ev)))
    ensures r.dadosExtras.None?
  {
    var cabeca, meio := "Inscrição de ", " no evento ";
    ContemEntre(cabeca, Aspas(participante.nome) + " cancelada", meio, Aspas(NomeEvento(ev)));
    TerminaComFim(cabeca + (Aspas(participante.nome) + " cancelada") + meio, Aspas(NomeEvento(ev)));
    Lancamento(InscricaoCancelada, None, Some(k.1), Some(k.0), Some(i.id), None,
               DescricaoInscricaoCancelada(participante.nome, NomeEvento(ev)), None)
  }

  /** The description `log_certificado_gerado` writes: the participant's quoted name, then
      the code. */
  function DescricaoCertificadoGerado(nome: string, codigo: nat): string {
    "Certificado gerado para " + Aspas(nome) + " - Código: " + Decimal(codigo)
  }

  /** A text put between two others can be found in the whole. */
  lemma ContemEntre(a: string, t: string, b: string, c: string)
    ensures Contem(a + t + b + c, t)
  {
    assert (a + t + b + c)[|a|..] == t + b + c;
  }

  /** The participant's name can be found in the description, and its trailing digits read back
      as the code. */
  lemma DescricaoCertificadoGeradoLe(nome: string, codigo: nat)
    ensures Contem(DescricaoCertificadoGerado(nome, codigo), Aspas(nome))
    ensures ValorDecimal(DigitosFinais(DescricaoCertificadoGerado(nome, codigo))) == codigo
  {
    var cabeca, separador := "Certificado gerado para ", " - Código: ";
    ContemEntre(cabeca, Aspas(nome), separador, Decimal(codigo));
    var antes := cabeca + Aspas(nome) + separador;
    assert antes[|antes| - 1] == separador[|separador| - 1] == ' ';
    DigitosFinaisApos(antes, Decimal(codigo));
    ValorDecimalDe(codigo);
  }

  /** The extra data of `log_certificado_gerado`: the code, which reads back as the
      certificate's, and the hours. */
  function DadosCertificadoGerado(c: Certificado): (x: map<string, Valor>)
    ensures x.Keys == {"codigo", "carga_horaria"}
    ensures ValorDecimal(Str(x["codigo"])) == c.codigo
    ensures x["carga_horaria"] == Inteiro(c.cargaHoraria)
  {
    ValorDecimalDe(c.codigo);
    map["codigo" := Texto(CodigoTexto(c)), "carga_horaria" := Inteiro(c.cargaHoraria)]
  }

  /** `log_certificado_gerado`: the description quotes the participant's name and ends with the
      code, which reads back as the certificate's code; code and hours go in the extra data. */
  function LogCertificadoGerado(k: InscricaoKey, c: Certificado, participante: Usuario): (r: Lancamento)
    ensures r.acao == CertificadoGerado && r.usuarioAfetado == Some(k.1) && r.evento == Some(k.0) && r.certificado == Some(k)
    ensures Contem(r.descricao, Aspas(participante.nome))
    ensures ValorDecimal(DigitosFinais(r.descricao)) == c.codigo
    ensures r.dadosExtras.Some? && r.dadosExtras.value.Keys == {"codigo", "carga_horaria"}
    ensures ValorDecimal(Str(r.dadosExtras.value["codigo"])) == c.codigo
    ensures r.dadosExtras.value["carga_horaria"] == Inteiro(c.cargaHoraria)
  {
    DescricaoCertificadoGeradoLe(participante.nome, c.codigo);
    Lancamento(CertificadoGerado, None, Some(k.1), Some(k.0), None, Some(k), DescricaoCertificadoGerado(participante.nome, c.codigo),
               Some(DadosCertificadoGerado(c)))
  }

  /** `log_certificado_consultado`: a query through the API is recorded under its own action and
      says so at the end of the description; a query through the site is not. */
  function LogCertificadoConsultado(k: InscricaoKey, c: Certificado, viaApi: bool): (r: Lancamento)
    ensures r.acao == (if viaApi then CertificadoConsultadoApi else CertificadoConsultado)
    ensures TerminaCom(r.descricao, " via API") <==> viaApi
    ensures r.usuarioAfetado == Some(k.1) && r.certificado == Some(k)
    ensures r.dadosExtras == Some(map["codigo" := Texto(CodigoTexto(c))])
  {
    var descricao := "Certificado " + CodigoTexto(c) + " consultado" + (if viaApi then " via API" else "");
    assert !viaApi ==> descricao[|descricao| - 1] == 'o';
    Lancamento(if viaApi then CertificadoConsultadoApi else CertificadoConsultado, None, Some(k.1), None, None, Some(k),
               descricao, Some(map["codigo" := Texto(CodigoTexto(c))]))
  }

  /** `log_login`: the user who logged in is the actor whatever the request, and the quoted
      name in the description is their username. */
  function LogLogin(uid: UserId, u: Usuario): (r: Lancamento)
    ensures r.acao == Login && r.usuario == Some(uid) && r.usuarioAfetado.None?
    ensures forall req, agora :: EntradaDe(r, req, agora).usuario == Some(uid)
    ensures Citacao(r.descricao) == u.username
  {
    CitacaoFinal("Login do usuário ", u.username);
    Lancamento(Login, Some(uid), None, None, None, None, "Login do usuário " + Aspas(u.username), None)
  }

  /** `log_logout`: the user who logged out is the actor whatever the request, and the quoted
      name in the description is their username. */
  function LogLogout(uid: UserId, u: Usuario): (r: Lancamento)
    ensures r.acao == Logout && r.usuario == Some(uid) && r.usuarioAfetado.None?
    ensures forall req, agora :: EntradaDe(r, req, agora).usuario == Some(uid)
    ensures Citacao(r.descricao) == u.username
  {
    CitacaoFinal("Logout do usuário ", u.username);
    Lancamento(Logout, Some(uid), None, None, None, None, "Logout do usuário " + Aspas(u.username), None)
  }

  /** A login is never described like a logout. */
  lemma LoginLogoutDistintos(uid: UserId, u: Usuario, v: UserId, w: Usuario)
    ensures LogLogin(uid, u).descricao != LogLogout(v, w).descricao
  {
    var entrada, saida := "Login do usuário ", "Logout do usuário ";
    assert (entrada + Aspas(u.username))[3] == entrada[3] != saida[3] == (saida + Aspas(w.username))[3];
  }

  /** An explicit actor always wins over the request user; without one the request user is
      recorded, and without a request neither IP nor user agent is. */
  lemma EntradaDeSpec(l: Lancamento, req: Option<Requisicao>, agora: int)
    ensures l.usuario.Some? ==> EntradaDe(l, req, agora).usuario == l.usuario
    ensures req.None? ==> EntradaDe(l, req, agora).ipAddress.None? && EntradaDe(l, req, agora).userAgent == ""
    ensures |EntradaDe(l, req, agora).userAgent| <= USER_AGENT_MAX
    ensures EntradaDe(l, req, agora).acao == l.acao && EntradaDe(l, req, agora).descricao == l.descricao
  {
  }
}
