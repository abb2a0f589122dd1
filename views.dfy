/** The HTML form handlers: user sign-up, event creation, registration of a participant and
    certificate issuance. Each handler reads the posted fields, accumulates the messages of every
    check that fails, writes nothing while any message is present, and otherwise performs one
    insert or upsert through the store. */
module Views {
  import opened Wrappers
  import opened Text
  import opened Models
  import opened Store

  /** `request.POST`: the posted field names and their values. */
  type Form = map<string, string>

  /** `data.get(campo, padrao)`. A missing field and an empty one are both falsy, so the handlers
      that only test a field's truthiness read a missing field as `""`. */
  function Get(form: Form, campo: string, padrao: string): string {
    if campo in form then form[campo] else padrao
  }

  /** The library conversions the handlers call: `date.fromisoformat` (a date as a day number),
      `int()` of a string (also used for primary-key lookups) and `str()` of a date. */
  datatype Parsers = Parsers(isoDate: string -> Option<int>, inteiro: string -> Option<int>, formatarData: int -> string)

  /** What a handler renders: a success message, the list of error messages, or a server error
      (an exception the handler does not catch). */
  datatype Feedback = Sucesso(mensagem: string) | Erros(erros: seq<string>) | ErroInterno

  // ---------------------------------------------------------------------------
  // Flattening a ValidationError
  // ---------------------------------------------------------------------------

  /** `"campo: mensagem"` for each message of one field, in order. */
  function Prefixados(campo: string, mensagens: seq<string>): (r: seq<string>)
    ensures |r| == |mensagens|
    ensures forall j :: 0 <= j < |mensagens| ==> r[j] == campo + ": " + mensagens[j]
  {
    if mensagens == [] then []
    else Prefixados(campo, mensagens[..|mensagens| - 1]) + [campo + ": " + mensagens[|mensagens| - 1]]
  }

  /** The messages of every field of an error dictionary, field after field. */
  function Achatados(entradas: seq<(string, seq<string>)>): seq<string> {
    if entradas == [] then []
    else Achatados(entradas[..|entradas| - 1]) + Prefixados(entradas[|entradas| - 1].0, entradas[|entradas| - 1].1)
  }

  /** How many messages an error dictionary holds. */
  function TotalMensagens(entradas: seq<(string, seq<string>)>): nat {
    if entradas == [] then 0
    else TotalMensagens(entradas[..|entradas| - 1]) + |entradas[|entradas| - 1].1|
  }

  /** `str()` of one entry of an error list: the repr of a one-message list. */
  function StrMensagem(m: string): string {
    "['" + m + "']"
  }

  /** What `_flatten_validation_errors` returns for `error`. */
  function Flattened(error: ValidationError): seq<string> {
    match error
    case ErrorDict(entradas) => Achatados(entradas)
    case ErrorList(mensagens) => StrMensagens(mensagens)
  }

  /** `[str(e) for e in error_list]`. */
  function StrMensagens(mensagens: seq<string>): (r: seq<string>)
    ensures |r| == |mensagens|
    ensures forall i :: 0 <= i < |mensagens| ==> r[i] == StrMensagem(mensagens[i])
  {
    if mensagens == [] then [] else [StrMensagem(mensagens[0])] + StrMensagens(mensagens[1..])
  }

  /** One output line per message. */
  lemma {:induction false} AchatadosLength(entradas: seq<(string, seq<string>)>)
    ensures |Achatados(entradas)| == TotalMensagens(entradas)
  {
    if entradas != [] {
      AchatadosLength(entradas[..|entradas| - 1]);
    }
  }

  /** The `j`-th message of the `i`-th field comes out, prefixed by its field, after the messages
      of all earlier fields: order is preserved. */
  lemma {:induction false} AchatadosAt(entradas: seq<(string, seq<string>)>, i: nat, j: nat)
    requires i < |entradas| && j < |entradas[i].1|
    ensures TotalMensagens(entradas[..i]) + j < |Achatados(entradas)|
    ensures Achatados(entradas)[TotalMensagens(entradas[..i]) + j] == entradas[i].0 + ": " + entradas[i].1[j]
  {
    var n := |entradas| - 1;
    var prefixo := entradas[..n];
    AchatadosLength(prefixo);
    if i == n {
      assert entradas[..i] == prefixo;
    } else {
      AchatadosAt(prefixo, i, j);
      assert prefixo[..i] == entradas[..i];
      assert prefixo[i] == entradas[i];
    }
  }

  /** `_flatten_validation_errors`: a nested loop over the fields of an error dictionary and
      their messages, or one string per entry of an error list. */
  method FlattenValidationErrors(error: ValidationError) returns (flat: seq<string>)
    ensures flat == Flattened(error)
    ensures error.ErrorDict? ==> |flat| == TotalMensagens(error.entries)
    ensures error.ErrorList? ==> |flat| == |error.messages|
  {
    match error
    case ErrorDict(entradas) =>
      flat := [];
      var i := 0;
      while i < |entradas|
        invariant 0 <= i <= |entradas|
        invariant flat == Achatados(entradas[..i])
      {
        var (campo, mensagens) := entradas[i];
        var j := 0;
        while j < |mensagens|
          invariant 0 <= j <= |mensagens|
          invariant flat == Achatados(entradas[..i]) + Prefixados(campo, mensagens[..j])
        {
          flat := flat + [campo + ": " + mensagens[j]];
          assert mensagens[..j + 1][..j] == mensagens[..j];
          j := j + 1;
        }
        assert mensagens[..|mensagens|] == mensagens;
        assert entradas[..i + 1][..i] == entradas[..i];
        i := i + 1;
      }
      assert entradas[..|entradas|] == entradas;
      AchatadosLength(entradas);
    case ErrorList(mensagens) =>
      flat := StrMensagens(mensagens);
  }

  // ---------------------------------------------------------------------------
  // Form error messages
  // ---------------------------------------------------------------------------

  /** Every check the four forms make, each with the message it adds. */
  datatype ErroForm =
    // user sign-up
    | NomeAusente | UsernameAusente | EmailAusente | TelefoneAusente
    | PerfilAusente | PerfilInvalido | InstituicaoAusente
    // event creation
    | TipoAusente | TipoInvalido | LocalAusente | DataInicioInvalida | DataFimInvalida
    | CapacidadeNaoPositiva | CapacidadeInvalida | OrganizadorAusente | OrganizadorInvalido
    | DataInicioAusente | DataFimAusente | CapacidadeAusente
    // registration
    | EventoAusente | ParticipanteAusente | StatusInvalido
    // certificate issuance
    | InscricaoAusente | EmissorAusente | CargaAusente | CargaNaoPositiva | CargaInvalida | ValidadeInvalida
  {
    function Mensagem(): string {
      match this
      case NomeAusente => "Informe o nome completo."
      case UsernameAusente => "Informe o usuário de login."
      case EmailAusente => "Informe o e-mail."
      case TelefoneAusente => "Informe o telefone."
      case PerfilAusente => "Selecione um perfil válido."
      case PerfilInvalido => "Perfil informado é inválido."
      case InstituicaoAusente => "Instituição é obrigatória para alunos e professores."
      case TipoAusente => "Selecione o tipo de evento."
      case TipoInvalido => "Tipo de evento inválido."
      case LocalAusente => "Informe o local do evento."
      case DataInicioInvalida => "Data de início inválida."
      case DataFimInvalida => "Data de término inválida."
      case CapacidadeNaoPositiva => "Informe uma capacidade maior que zero."
      case CapacidadeInvalida => "Capacidade inválida."
      case OrganizadorAusente => "Selecione um organizador responsável."
      case OrganizadorInvalido => "Organizador informado não é válido."
      case DataInicioAusente => "Informe a data de início."
      case DataFimAusente => "Informe a data de término."
      case CapacidadeAusente => "Informe a capacidade do evento."
      case EventoAusente => "Escolha um evento."
      case ParticipanteAusente => "Selecione um participante."
      case StatusInvalido => "Status de inscrição inválido."
      case InscricaoAusente => "Selecione uma inscrição elegível."
      case EmissorAusente => "Selecione o emissor."
      case CargaAusente => "Informe a carga horária."
      case CargaNaoPositiva => "Informe uma carga horária positiva."
      case CargaInvalida => "Carga horária inválida."
      case ValidadeInvalida => "Data de validade inválida."
    }
  }

  function Mensagens(erros: seq<ErroForm>): (r: seq<string>)
    ensures |r| == |erros|
    ensures forall i :: 0 <= i < |erros| ==> r[i] == erros[i].Mensagem()
  {
    if erros == [] then [] else [erros[0].Mensagem()] + Mensagens(erros[1..])
  }

  const MSG_USUARIO_DUPLICADO: string := "Usuário ou e-mail já cadastrado."
  const MSG_EVENTO_FALHOU: string := "Não foi possível cadastrar o evento. Tente novamente."
  const MSG_INSCRICAO_FALHOU: string := "Não foi possível registrar a inscrição."
  const MSG_INSCRICAO_NAO_ENCONTRADA: string := "Inscrição selecionada não foi encontrada."
  const MSG_INSCRICAO_INELEGIVEL: string := "A inscrição precisa estar confirmada com presença registrada."
  const MSG_EMISSOR_INVALIDO: string := "Emissor selecionado não é válido."

  /** A posted primary key of a user with one of `perfis`: the lookup
      `Usuario.objects.get(pk=id, perfil__in=perfis)` finds a row. */
  predicate UsuarioComPerfil(usuarios: map<UserId, Usuario>, id: int, perfis: set<Perfil>) {
    0 <= id && id as nat in usuarios && usuarios[id as nat].perfil in perfis
  }

  // ---------------------------------------------------------------------------
  // CadastroUsuarioView
  // ---------------------------------------------------------------------------

  /** The sign-up form's fields, each stripped of surrounding white space. */
  datatype FormUsuario = FormUsuario(nome: string, username: string, email: string, telefone: string,
                                     perfil: string, instituicao: string)

  function LerFormUsuario(form: Form): FormUsuario {
    FormUsuario(Strip(Get(form, "nome", "")), Strip(Get(form, "username", "")), Strip(Get(form, "email", "")),
                Strip(Get(form, "telefone", "")), Strip(Get(form, "perfil", "")), Strip(Get(form, "instituicao", "")))
  }

  /** When the sign-up form reports `e`. */
  predicate OcorreErroUsuario(f: FormUsuario, e: ErroForm) {
    match e
    case NomeAusente => f.nome == ""
    case UsernameAusente => f.username == ""
    case EmailAusente => f.email == ""
    case TelefoneAusente => f.telefone == ""
    case PerfilAusente => f.perfil == ""
    case PerfilInvalido => f.perfil != "" && ParsePerfil(f.perfil).None?
    case InstituicaoAusente => f.perfil in {"ALUNO", "PROFESSOR"} && f.instituicao == ""
    case _ => false
  }

  /** A sign-up form that names every field, a known role, and an institution when the role
      requires one. */
  predicate FormUsuarioValido(f: FormUsuario) {
    && f.nome != "" && f.username != "" && f.email != "" && f.telefone != ""
    && ParsePerfil(f.perfil).Some?
    && (ExigeInstituicao(ParsePerfil(f.perfil).value) ==> f.instituicao != "")
  }

  /** The user a valid sign-up form creates; an empty institution is stored as null. */
  function UsuarioDoForm(f: FormUsuario): Usuario
    requires ParsePerfil(f.perfil).Some?
  {
    Usuario(f.username, f.nome, f.email, f.telefone, ParsePerfil(f.perfil).value,
            if f.instituicao == "" then None else Some(f.instituicao))
  }

  /** The form reports no error exactly when it is valid, and a valid form describes a user the
      institution constraint accepts. */
  lemma FormUsuarioValidoSpec(f: FormUsuario)
    ensures FormUsuarioValido(f) <==> forall e :: !OcorreErroUsuario(f, e)
    ensures FormUsuarioValido(f) ==> UsuarioCheckConstraint(UsuarioDoForm(f)) && UsuarioClean(UsuarioDoForm(f)).None?
  {
    if forall e :: !OcorreErroUsuario(f, e) {
      assert !OcorreErroUsuario(f, NomeAusente) && !OcorreErroUsuario(f, UsernameAusente);
      assert !OcorreErroUsuario(f, EmailAusente) && !OcorreErroUsuario(f, TelefoneAusente);
      assert !OcorreErroUsuario(f, PerfilAusente) && !OcorreErroUsuario(f, PerfilInvalido);
      assert !OcorreErroUsuario(f, InstituicaoAusente);
      var p := ParsePerfil(f.perfil).value;
      assert p.Value() == f.perfil;
    }
    if FormUsuarioValido(f) {
      forall e ensures !OcorreErroUsuario(f, e) {
        if e == InstituicaoAusente && f.perfil == "ALUNO" {
          assert ParsePerfil(f.perfil) == Some(Aluno);
        } else if e == InstituicaoAusente && f.perfil == "PROFESSOR" {
          assert ParsePerfil(f.perfil) == Some(Professor);
        }
      }
    }
  }

  /** The messages the sign-up checks append, in order. */
  function ErrosUsuario(f: FormUsuario): seq<ErroForm> {
    Se(f.nome == "", NomeAusente)
    + Se(f.username == "", UsernameAusente)
    + Se(f.email == "", EmailAusente)
    + Se(f.telefone == "", TelefoneAusente)
    + (if f.perfil == "" then [PerfilAusente] else Se(ParsePerfil(f.perfil).None?, PerfilInvalido))
    + Se(f.perfil in {"ALUNO", "PROFESSOR"} && f.instituicao == "", InstituicaoAusente)
  }

  /** The sign-up checks report `e` exactly when it occurs. */
  lemma ErrosUsuarioOcorrem(f: FormUsuario, e: ErroForm)
    ensures e in ErrosUsuario(f) <==> OcorreErroUsuario(f, e)
  {
    match e {
      case NomeAusente =>
      case UsernameAusente =>
      case EmailAusente =>
      case TelefoneAusente =>
      case PerfilAusente =>
      case PerfilInvalido =>
      case InstituicaoAusente =>
      case _ =>
    }
  }

  /** The sign-up checks report exactly the errors that occur, and nothing exactly when the form
      is valid. */
  lemma ErrosUsuarioSpec(f: FormUsuario)
    ensures forall e :: e in ErrosUsuario(f) <==> OcorreErroUsuario(f, e)
    ensures ErrosUsuario(f) == [] <==> FormUsuarioValido(f)
  {
    forall e ensures e in ErrosUsuario(f) <==> OcorreErroUsuario(f, e) {
      ErrosUsuarioOcorrem(f, e);
    }
    FormUsuarioValidoSpec(f);
    if ErrosUsuario(f) != [] {
      assert ErrosUsuario(f)[0] in ErrosUsuario(f);
    }
  }

  /** The checks of `CadastroUsuarioView.post`, appending one message per failed check. */
  method ValidaCadastroUsuario(f: FormUsuario) returns (erros: seq<ErroForm>)
    ensures erros == ErrosUsuario(f)
    ensures forall e :: e in erros <==> OcorreErroUsuario(f, e)
    ensures erros == [] <==> FormUsuarioValido(f)
  {
    erros := Se(f.nome == "", NomeAusente);
    erros := erros + Se(f.username == "", UsernameAusente);
    erros := erros + Se(f.email == "", EmailAusente);
    erros := erros + Se(f.telefone == "", TelefoneAusente);
    erros := erros + if f.perfil == "" then [PerfilAusente] else Se(ParsePerfil(f.perfil).None?, PerfilInvalido);
    erros := erros + Se(f.perfil in {"ALUNO", "PROFESSOR"} && f.instituicao == "", InstituicaoAusente);
    ErrosUsuarioSpec(f);
  }

  /** The success message names the user as saved, that is with the normalised username. */
  function MensagemUsuario(f: FormUsuario, n: Normalizacao): string {
    "Usuário '" + n.username(f.username) + "' criado com sucesso."
  }

  /** `CadastroUsuarioView.post` on the stripped fields: validates them, then creates the user
      through `create_user`, which normalises with `n`; a normalised username already in use is
      reported as a duplicate. */
  method CadastroUsuario(db: Database, f: FormUsuario, n: Normalizacao) returns (r: Feedback)
    requires db.Valid()
    modifies db
    ensures db.Valid()
    ensures !FormUsuarioValido(f) ==> r == Erros(Mensagens(ErrosUsuario(f))) && db.Snapshot() == old(db.Snapshot())
    ensures !FormUsuarioValido(f) ==>
      && r.Erros?
      && (forall e :: OcorreErroUsuario(f, e) ==> e.Mensagem() in r.erros)
      && (forall m :: m in r.erros ==> exists e :: OcorreErroUsuario(f, e) && m == e.Mensagem())
    ensures FormUsuarioValido(f) && UsernameEmUso(old(db.usuarios), n.username(f.username)) ==>
      r == Erros([MSG_USUARIO_DUPLICADO]) && db.Snapshot() == old(db.Snapshot())
    ensures FormUsuarioValido(f) && !UsernameEmUso(old(db.usuarios), n.username(f.username)) ==>
      && r == Sucesso(MensagemUsuario(f, n))
      && db.usuarios == old(db.usuarios)[old(db.proximoUsuario) := Normalizado(UsuarioDoForm(f), n)]
      && db.proximoUsuario == old(db.proximoUsuario) + 1
      && db.eventos == old(db.eventos) && db.inscricoes == old(db.inscricoes) && db.certificados == old(db.certificados)
  {
    var erros := ValidaCadastroUsuario(f);
    if erros != [] {
      MensagensDe(erros);
      return Erros(Mensagens(erros));
    }
    FormUsuarioValidoSpec(f);
    var criado := db.CreateUsuario(UsuarioDoForm(f), n);
    if criado.Failure? {
      return Erros([MSG_USUARIO_DUPLICADO]);
    }
    r := Sucesso(MensagemUsuario(f, n));
  }

  /** `CadastroUsuarioView.post`: reads and strips the posted fields, then signs the user up. */
  method CadastroUsuarioPost(db: Database, form: Form, n: Normalizacao) returns (r: Feedback)
    requires db.Valid()
    modifies db
    ensures db.Valid()
    ensures var f := LerFormUsuario(form);
      !FormUsuarioValido(f) ==> r == Erros(Mensagens(ErrosUsuario(f))) && db.Snapshot() == old(db.Snapshot())
    ensures var f := LerFormUsuario(form);
      !FormUsuarioValido(f) ==>
        && r.Erros?
        && (forall e :: OcorreErroUsuario(f, e) ==> e.Mensagem() in r.erros)
        && (forall m :: m in r.erros ==> exists e :: OcorreErroUsuario(f, e) && m == e.Mensagem())
    ensures var f := LerFormUsuario(form);
      FormUsuarioValido(f) && UsernameEmUso(old(db.usuarios), n.username(f.username)) ==>
        r == Erros([MSG_USUARIO_DUPLICADO]) && db.Snapshot() == old(db.Snapshot())
    ensures var f := LerFormUsuario(form);
      FormUsuarioValido(f) && !UsernameEmUso(old(db.usuarios), n.username(f.username)) ==>
        && r == Sucesso(MensagemUsuario(f, n))
        && db.usuarios == old(db.usuarios)[old(db.proximoUsuario) := Normalizado(UsuarioDoForm(f), n)]
        && db.proximoUsuario == old(db.proximoUsuario) + 1
        && db.eventos == old(db.eventos) && db.inscricoes == old(db.inscricoes) && db.certificados == old(db.certificados)
  {
    r := CadastroUsuario(db, LerFormUsuario(form), n);
  }

  /** The rendered messages are the messages of the recorded errors, and only those. */
  lemma MensagensDe(erros: seq<ErroForm>)
    ensures forall e :: e in erros ==> e.Mensagem() in Mensagens(erros)
    ensures forall m :: m in Mensagens(erros) ==> exists e :: e in erros && m == e.Mensagem()
  {
    forall e | e in erros ensures e.Mensagem() in Mensagens(erros) {
      var i :| 0 <= i < |erros| && erros[i] == e;
      assert Mensagens(erros)[i] == e.Mensagem();
    }
    forall m | m in Mensagens(erros) ensures exists e :: e in erros && m == e.Mensagem() {
      var i :| 0 <= i < |Mensagens(erros)| && Mensagens(erros)[i] == m;
      assert erros[i] in erros;
    }
  }

  // ---------------------------------------------------------------------------
  // Converted fields
  // ---------------------------------------------------------------------------

  /** A posted value after the handler's conversion `conv(raw) if raw else None`: absent or
      empty (not converted), rejected by the conversion, or converted. */
  datatype Campo = Vazio | Invalido | Valor(v: int)

  function Converte(conv: string -> Option<int>, raw: string): (c: Campo)
    ensures c.Vazio? <==> raw == ""
    ensures c.Invalido? <==> raw != "" && conv(raw).None?
    ensures c.Valor? ==> conv(raw) == Some(c.v)
  {
    if raw == "" then Vazio
    else match conv(raw)
      case None => Invalido
      case Some(v) => Valor(v)
  }

  /** The roles the organizer and issuer lookups accept. */
  const PERFIS_ORGANIZADOR: set<Perfil> := {Admin, Organizador}

  // ---------------------------------------------------------------------------
  // CadastroEventoView
  // ---------------------------------------------------------------------------

  /** The event form's fields: type and place stripped, dates and capacity converted, and the
      organizer key converted the way the primary-key lookup converts it. */
  datatype FormEvento = FormEvento(tipo: string, local: string, dataInicio: Campo, dataFim: Campo,
                                   capacidade: Campo, organizador: Campo)

  function LerFormEvento(form: Form, p: Parsers): FormEvento {
    FormEvento(Strip(Get(form, "tipo", "")), Strip(Get(form, "local", "")),
               Converte(p.isoDate, Get(form, "data_inicio", "")), Converte(p.isoDate, Get(form, "data_fim", "")),
               Converte(p.inteiro, Get(form, "capacidade", "")), Converte(p.inteiro, Get(form, "organizador", "")))
  }

  /** The organizer lookup raises an uncaught `ValueError` on a key that is not a number. */
  predicate ExcecaoEvento(f: FormEvento) {
    f.organizador.Invalido?
  }

  /** When the event form reports `e`. A date that does not parse is reported both as invalid and
      as missing; so is a capacity that does not parse. */
  predicate OcorreErroEvento(f: FormEvento, usuarios: map<UserId, Usuario>, e: ErroForm) {
    match e
    case TipoAusente => f.tipo == ""
    case TipoInvalido => f.tipo != "" && ParseTipoEvento(f.tipo).None?
    case LocalAusente => f.local == ""
    case DataInicioInvalida => f.dataInicio.Invalido?
    case DataFimInvalida => f.dataFim.Invalido?
    case CapacidadeInvalida => f.capacidade.Invalido?
    case CapacidadeNaoPositiva => f.capacidade.Valor? && f.capacidade.v <= 0
    case OrganizadorAusente => f.organizador.Vazio?
    case OrganizadorInvalido => f.organizador.Valor? && !UsuarioComPerfil(usuarios, f.organizador.v, PERFIS_ORGANIZADOR)
    case DataInicioAusente => !f.dataInicio.Valor?
    case DataFimAusente => !f.dataFim.Valor?
    case CapacidadeAusente => !f.capacidade.Valor?
    case _ => false
  }

  /** An event form with a known type, a place, two dates, a positive capacity and an organizer
      whose role may organize. */
  predicate FormEventoValido(f: FormEvento, usuarios: map<UserId, Usuario>) {
    && ParseTipoEvento(f.tipo).Some? && f.local != ""
    && f.dataInicio.Valor? && f.dataFim.Valor?
    && f.capacidade.Valor? && f.capacidade.v > 0
    && f.organizador.Valor? && UsuarioComPerfil(usuarios, f.organizador.v, PERFIS_ORGANIZADOR)
  }

  /** The event a valid form creates. The form has no title and no hours: the title is left empty
      and the hours take the column default `cargaPadrao`. */
  function EventoDoForm(f: FormEvento, usuarios: map<UserId, Usuario>, cargaPadrao: int, agora: int): Evento
    requires FormEventoValido(f, usuarios)
  {
    Evento(ParseTipoEvento(f.tipo).value, "", f.dataInicio.v, f.dataFim.v, f.local, f.capacidade.v, cargaPadrao,
           f.organizador.v as nat, agora)
  }

  /** `f"Evento '{evento}' cadastrado com sucesso."`, with `str(evento)` = `"{tipo} - {local} ({data_inicio})"`. */
  function MensagemEvento(ev: Evento, p: Parsers): string {
    "Evento '" + ev.tipo.Value() + " - " + ev.local + " (" + p.formatarData(ev.dataInicio) + ")' cadastrado com sucesso."
  }

  /** Of the constraints the store enforces on insert, the event of a valid form can only break
      the date order, and its organizer may organize. */
  lemma EventoDoFormSpec(f: FormEvento, usuarios: map<UserId, Usuario>, cargaPadrao: int, agora: int)
    requires FormEventoValido(f, usuarios)
    ensures var ev := EventoDoForm(f, usuarios, cargaPadrao, agora);
      && ev.organizador in usuarios && PodeOrganizar(usuarios[ev.organizador].perfil)
      && (EventoCheckConstraints(ev) <==> ev.dataFim >= ev.dataInicio)
  {
  }

  /** The form reports no error exactly when it is valid, and a valid form never raises. */
  lemma FormEventoValidoSpec(f: FormEvento, usuarios: map<UserId, Usuario>)
    ensures FormEventoValido(f, usuarios) ==> !ExcecaoEvento(f)
    ensures !ExcecaoEvento(f) ==> (FormEventoValido(f, usuarios) <==> forall e :: !OcorreErroEvento(f, usuarios, e))
  {
    if !ExcecaoEvento(f) && forall e :: !OcorreErroEvento(f, usuarios, e) {
      assert !OcorreErroEvento(f, usuarios, TipoAusente) && !OcorreErroEvento(f, usuarios, TipoInvalido);
      assert !OcorreErroEvento(f, usuarios, LocalAusente);
      assert !OcorreErroEvento(f, usuarios, DataInicioAusente) && !OcorreErroEvento(f, usuarios, DataFimAusente);
      assert !OcorreErroEvento(f, usuarios, CapacidadeAusente) && !OcorreErroEvento(f, usuarios, CapacidadeNaoPositiva);
      assert !OcorreErroEvento(f, usuarios, OrganizadorAusente) && !OcorreErroEvento(f, usuarios, OrganizadorInvalido);
    }
  }

  /** `[e]` when `c` holds, else nothing: one conditional append. */
  function Se(c: bool, e: ErroForm): (r: seq<ErroForm>)
    ensures forall x :: x in r <==> c && x == e
  {
    if c then [e] else []
  }

  /** The messages the event checks before the organizer lookup append, in order. */
  function ErrosEventoCampos(f: FormEvento): seq<ErroForm> {
    (if f.tipo == "" then [TipoAusente] else Se(ParseTipoEvento(f.tipo).None?, TipoInvalido))
    + Se(f.local == "", LocalAusente)
    + Se(f.dataInicio.Invalido?, DataInicioInvalida)
    + Se(f.dataFim.Invalido?, DataFimInvalida)
    + (if f.capacidade.Invalido? then [CapacidadeInvalida]
       else Se(f.capacidade.Valor? && f.capacidade.v <= 0, CapacidadeNaoPositiva))
  }

  /** The messages the event checks from the organizer lookup on append, in order, when the
      lookup does not raise. */
  function ErrosEventoFinais(f: FormEvento, usuarios: map<UserId, Usuario>): seq<ErroForm> {
    (if f.organizador.Vazio? then [OrganizadorAusente]
     else if f.organizador.Invalido? then []
     else Se(!UsuarioComPerfil(usuarios, f.organizador.v, PERFIS_ORGANIZADOR), OrganizadorInvalido))
    + Se(!f.dataInicio.Valor?, DataInicioAusente)
    + Se(!f.dataFim.Valor?, DataFimAusente)
    + Se(!f.capacidade.Valor?, CapacidadeAusente)
  }

  /** All the messages the event checks append, in order, when the organizer lookup does not
      raise. */
  function ErrosEvento(f: FormEvento, usuarios: map<UserId, Usuario>): seq<ErroForm> {
    ErrosEventoCampos(f) + ErrosEventoFinais(f, usuarios)
  }

  /** The errors the checks before the organizer lookup can report. */
  predicate ErroDosCampos(e: ErroForm) {
    e.TipoAusente? || e.TipoInvalido? || e.LocalAusente? || e.DataInicioInvalida? || e.DataFimInvalida?
    || e.CapacidadeInvalida? || e.CapacidadeNaoPositiva?
  }

  /** The checks before the organizer lookup report exactly the errors of their kinds that occur. */
  lemma ErrosEventoCamposOcorrem(f: FormEvento, usuarios: map<UserId, Usuario>, e: ErroForm)
    ensures e in ErrosEventoCampos(f) <==> ErroDosCampos(e) && OcorreErroEvento(f, usuarios, e)
  {
    match e {
      case TipoAusente =>
      case TipoInvalido =>
      case LocalAusente =>
      case DataInicioInvalida =>
      case DataFimInvalida =>
      case CapacidadeInvalida =>
      case CapacidadeNaoPositiva =>
      case _ =>
    }
  }

  /** The checks from the organizer lookup on report exactly the other errors that occur. */
  lemma ErrosEventoFinaisOcorrem(f: FormEvento, usuarios: map<UserId, Usuario>, e: ErroForm)
    ensures e in ErrosEventoFinais(f, usuarios) <==> !ErroDosCampos(e) && OcorreErroEvento(f, usuarios, e)
  {
    match e {
      case OrganizadorAusente =>
      case OrganizadorInvalido =>
      case DataInicioAusente =>
      case DataFimAusente =>
      case CapacidadeAusente =>
      case _ =>
    }
  }

  /** The event checks report exactly the errors that occur. */
  lemma ErrosEventoSpec(f: FormEvento, usuarios: map<UserId, Usuario>)
    ensures forall e :: e in ErrosEvento(f, usuarios) <==> OcorreErroEvento(f, usuarios, e)
  {
    forall e ensures e in ErrosEvento(f, usuarios) <==> OcorreErroEvento(f, usuarios, e) {
      ErrosEventoCamposOcorrem(f, usuarios, e);
      ErrosEventoFinaisOcorrem(f, usuarios, e);
    }
  }

  /** When the organizer lookup does not raise, the event checks report nothing exactly when the
      form is valid. */
  lemma ErrosEventoVazios(f: FormEvento, usuarios: map<UserId, Usuario>)
    requires !ExcecaoEvento(f)
    ensures ErrosEvento(f, usuarios) == [] <==> FormEventoValido(f, usuarios)
  {
    ErrosEventoSpec(f, usuarios);
    FormEventoValidoSpec(f, usuarios);
    if ErrosEvento(f, usuarios) != [] {
      assert ErrosEvento(f, usuarios)[0] in ErrosEvento(f, usuarios);
    }
  }

  /** The checks of `CadastroEventoView.post`, appending one message per failed check; `excecao`
      is set when the organizer lookup raises. */
  method ValidaCadastroEvento(f: FormEvento, usuarios: map<UserId, Usuario>) returns (erros: seq<ErroForm>, excecao: bool)
    ensures excecao <==> ExcecaoEvento(f)
    ensures !excecao ==> erros == ErrosEvento(f, usuarios)
    ensures !excecao ==> forall e :: e in erros <==> OcorreErroEvento(f, usuarios, e)
    ensures !excecao ==> (erros == [] <==> FormEventoValido(f, usuarios))
  {
    excecao := false;
    erros := if f.tipo == "" then [TipoAusente] else Se(ParseTipoEvento(f.tipo).None?, TipoInvalido);
    erros := erros + Se(f.local == "", LocalAusente);
    erros := erros + Se(f.dataInicio.Invalido?, DataInicioInvalida);
    erros := erros + Se(f.dataFim.Invalido?, DataFimInvalida);
    erros := erros + if f.capacidade.Invalido? then [CapacidadeInvalida]
                     else Se(f.capacidade.Valor? && f.capacidade.v <= 0, CapacidadeNaoPositiva);
    assert erros == ErrosEventoCampos(f);
    if f.organizador.Invalido? {
      excecao := true;
      return;
    }
    // the remaining checks append to the same list; they are gathered first so that the list
    // reads as the checks before the lookup followed by the checks from the lookup on
    var finais := if f.organizador.Vazio? then [OrganizadorAusente]
                  else Se(!UsuarioComPerfil(usuarios, f.organizador.v, PERFIS_ORGANIZADOR), OrganizadorInvalido);
    finais := finais + Se(!f.dataInicio.Valor?, DataInicioAusente);
    finais := finais + Se(!f.dataFim.Valor?, DataFimAusente);
    finais := finais + Se(!f.capacidade.Valor?, CapacidadeAusente);
    assert finais == ErrosEventoFinais(f, usuarios);
    erros := erros + finais;
    ErrosEventoSpec(f, usuarios);
    ErrosEventoVazios(f, usuarios);
  }

  /** `CadastroEventoView.post` on the read fields: validates them, then inserts the event. The
      insert does not run `Evento.clean()`, so an end date before the start date reaches the
      database constraint and is reported as a failed insert. */
  method CadastroEvento(db: Database, f: FormEvento, p: Parsers, cargaPadrao: int, agora: int) returns (r: Feedback)
    requires db.Valid()
    modifies db
    ensures db.Valid()
    ensures ExcecaoEvento(f) ==> r == ErroInterno && db.Snapshot() == old(db.Snapshot())
    ensures !ExcecaoEvento(f) && !FormEventoValido(f, old(db.usuarios)) ==> r == Erros(Mensagens(ErrosEvento(f, old(db.usuarios))))
    ensures !ExcecaoEvento(f) && !FormEventoValido(f, old(db.usuarios)) ==>
      && r.Erros?
      && (forall e :: OcorreErroEvento(f, old(db.usuarios), e) ==> e.Mensagem() in r.erros)
      && (forall m :: m in r.erros ==> exists e :: OcorreErroEvento(f, old(db.usuarios), e) && m == e.Mensagem())
      && db.Snapshot() == old(db.Snapshot())
    ensures FormEventoValido(f, old(db.usuarios)) ==>
      var ev := EventoDoForm(f, old(db.usuarios), cargaPadrao, agora);
      if ev.dataFim < ev.dataInicio then
        r == Erros([MSG_EVENTO_FALHOU]) && db.Snapshot() == old(db.Snapshot())
      else
        && r == Sucesso(MensagemEvento(ev, p))
        && db.eventos == old(db.eventos)[old(db.proximoEvento) := ev]
        && db.proximoEvento == old(db.proximoEvento) + 1
        && db.usuarios == old(db.usuarios) && db.inscricoes == old(db.inscricoes) && db.certificados == old(db.certificados)
  {
    var erros, excecao := ValidaCadastroEvento(f, db.usuarios);
    if excecao {
      return ErroInterno;
    }
    if erros != [] {
      MensagensDe(erros);
      return Erros(Mensagens(erros));
    }
    EventoDoFormSpec(f, db.usuarios, cargaPadrao, agora);
    var ev := EventoDoForm(f, db.usuarios, cargaPadrao, agora);
    var criado := db.CreateEvento(ev);
    if criado.Failure? {
      return Erros([MSG_EVENTO_FALHOU]);
    }
    r := Sucesso(MensagemEvento(ev, p));
  }

  /** `CadastroEventoView.post`: reads the posted fields, then creates the event. */
  method CadastroEventoPost(db: Database, form: Form, p: Parsers, cargaPadrao: int, agora: int) returns (r: Feedback)
    requires db.Valid()
    modifies db
    ensures db.Valid()
    ensures var f := LerFormEvento(form, p);
      ExcecaoEvento(f) ==> r == ErroInterno && db.Snapshot() == old(db.Snapshot())
    ensures var f := LerFormEvento(form, p);
      !ExcecaoEvento(f) && !FormEventoValido(f, old(db.usuarios)) ==> r == Erros(Mensagens(ErrosEvento(f, old(db.usuarios))))
    ensures var f := LerFormEvento(form, p);
      !ExcecaoEvento(f) && !FormEventoValido(f, old(db.usuarios)) ==>
        && r.Erros?
        && (forall e :: OcorreErroEvento(f, old(db.usuarios), e) ==> e.Mensagem() in r.erros)
        && (forall m :: m in r.erros ==> exists e :: OcorreErroEvento(f, old(db.usuarios), e) && m == e.Mensagem())
        && db.Snapshot() == old(db.Snapshot())
    ensures var f := LerFormEvento(form, p);
      FormEventoValido(f, old(db.usuarios)) ==>
        var ev := EventoDoForm(f, old(db.usuarios), cargaPadrao, agora);
        if ev.dataFim < ev.dataInicio then
          r == Erros([MSG_EVENTO_FALHOU]) && db.Snapshot() == old(db.Snapshot())
        else
          && r == Sucesso(MensagemEvento(ev, p))
          && db.eventos == old(db.eventos)[old(db.proximoEvento) := ev]
          && db.proximoEvento == old(db.proximoEvento) + 1
          && db.usuarios == old(db.usuarios) && db.inscricoes == old(db.inscricoes) && db.certificados == old(db.certificados)
  {
    r := CadastroEvento(db, LerFormEvento(form, p), p, cargaPadrao, agora);
  }

  // ---------------------------------------------------------------------------
  // InscricaoUsuarioView
  // ---------------------------------------------------------------------------

  /** The registration form's fields: the event and participant keys converted the way the
      lookup converts them, the status (PENDENTE when absent) and whether the attendance box
      was ticked. */
  datatype FormInscricao = FormInscricao(evento: Campo, participante: Campo, status: string, presenca: bool)

  function LerFormInscricao(form: Form, p: Parsers): (f: FormInscricao)
    ensures "status" !in form ==> ParseInscricaoStatus(f.status) == Some(Pendente)
    ensures f.presenca <==> "presenca_confirmada" in form && form["presenca_confirmada"] == "on"
  {
    FormInscricao(Converte(p.inteiro, Get(form, "evento", "")), Converte(p.inteiro, Get(form, "participante", "")),
                  Get(form, "status", Pendente.Value()), Get(form, "presenca_confirmada", "") == "on")
  }

  /** When the registration form reports `e`. */
  predicate OcorreErroInscricao(f: FormInscricao, e: ErroForm) {
    match e
    case EventoAusente => f.evento.Vazio?
    case ParticipanteAusente => f.participante.Vazio?
    case StatusInvalido => ParseInscricaoStatus(f.status).None?
    case _ => false
  }

  predicate FormInscricaoValido(f: FormInscricao) {
    !f.evento.Vazio? && !f.participante.Vazio? && ParseInscricaoStatus(f.status).Some?
  }

  /** The lookup by the posted keys raises an uncaught `ValueError` when either is not a number. */
  predicate ExcecaoInscricao(f: FormInscricao) {
    f.evento.Invalido? || f.participante.Invalido?
  }

  /** The (event, participant) pair the posted keys name; a negative key names no row. */
  function ChaveDoForm(f: FormInscricao): Option<InscricaoKey> {
    if f.evento.Valor? && f.participante.Valor? && f.evento.v >= 0 && f.participante.v >= 0 then
      Some((f.evento.v as nat, f.participante.v as nat))
    else
      None
  }

  function MensagemInscricao(criada: bool): string {
    if criada then "Inscrição criada com sucesso." else "Inscrição atualizada com sucesso."
  }

  lemma FormInscricaoValidoSpec(f: FormInscricao)
    ensures FormInscricaoValido(f) <==> forall e :: !OcorreErroInscricao(f, e)
  {
    if forall e :: !OcorreErroInscricao(f, e) {
      assert !OcorreErroInscricao(f, EventoAusente) && !OcorreErroInscricao(f, ParticipanteAusente);
      assert !OcorreErroInscricao(f, StatusInvalido);
    }
  }

  /** The messages the registration checks append, in order. */
  function ErrosInscricao(f: FormInscricao): seq<ErroForm> {
    Se(f.evento.Vazio?, EventoAusente) + Se(f.participante.Vazio?, ParticipanteAusente)
    + Se(ParseInscricaoStatus(f.status).None?, StatusInvalido)
  }

  /** The registration checks report exactly the errors that occur, and nothing exactly when the
      form is valid. */
  lemma ErrosInscricaoSpec(f: FormInscricao)
    ensures forall e :: e in ErrosInscricao(f) <==> OcorreErroInscricao(f, e)
    ensures ErrosInscricao(f) == [] <==> FormInscricaoValido(f)
  {
    forall e ensures e in ErrosInscricao(f) <==> OcorreErroInscricao(f, e) {
      match e {
        case EventoAusente =>
        case ParticipanteAusente =>
        case StatusInvalido =>
        case _ =>
      }
    }
    FormInscricaoValidoSpec(f);
    if ErrosInscricao(f) != [] {
      assert ErrosInscricao(f)[0] in ErrosInscricao(f);
    }
  }

  /** The checks of `InscricaoUsuarioView.post`. */
  method ValidaInscricao(f: FormInscricao) returns (erros: seq<ErroForm>)
    ensures erros == ErrosInscricao(f)
    ensures forall e :: e in erros <==> OcorreErroInscricao(f, e)
    ensures erros == [] <==> FormInscricaoValido(f)
  {
    erros := Se(f.evento.Vazio?, EventoAusente);
    erros := erros + Se(f.participante.Vazio?, ParticipanteAusente);
    erros := erros + Se(ParseInscricaoStatus(f.status).None?, StatusInvalido);
    ErrosInscricaoSpec(f);
  }

  /** `InscricaoUsuarioView.post` on the read fields: `get_or_create` keyed by (event,
      participant). An existing registration takes the posted status and attendance and is saved;
      otherwise one is created with them. Either save runs the capacity check. */
  method InscricaoUsuario(db: Database, f: FormInscricao, agora: int) returns (r: Feedback)
    requires db.Valid()
    modifies db
    ensures db.Valid()
    ensures !FormInscricaoValido(f) ==> r == Erros(Mensagens(ErrosInscricao(f)))
    ensures !FormInscricaoValido(f) ==>
      && r.Erros?
      && (forall e :: OcorreErroInscricao(f, e) ==> e.Mensagem() in r.erros)
      && (forall m :: m in r.erros ==> exists e :: OcorreErroInscricao(f, e) && m == e.Mensagem())
      && db.Snapshot() == old(db.Snapshot())
    ensures FormInscricaoValido(f) && ExcecaoInscricao(f) ==> r == ErroInterno && db.Snapshot() == old(db.Snapshot())
    ensures FormInscricaoValido(f) && !ExcecaoInscricao(f) && ChaveDoForm(f).None? ==>
      r == Erros([MSG_INSCRICAO_FALHOU]) && db.Snapshot() == old(db.Snapshot())
    ensures FormInscricaoValido(f) && ChaveDoForm(f).Some? ==>
      var k, st := ChaveDoForm(f).value, ParseInscricaoStatus(f.status).value;
      if k in old(db.inscricoes) then
        var v := old(db.inscricoes)[k].(status := st, presencaConfirmada := f.presenca);
        match InscricaoClean(old(db.eventos)[k.0], old(db.inscricoes), k, v)
        case Some(err) => r == Erros(Flattened(err)) && db.Snapshot() == old(db.Snapshot())
        case None =>
          && r == Sucesso(MensagemInscricao(false))
          && db.Snapshot() == old(db.Snapshot()).(inscricoes := old(db.inscricoes)[k := v])
      else if k.0 !in old(db.eventos) || k.1 !in old(db.usuarios) then
        r == Erros([MSG_INSCRICAO_FALHOU]) && db.Snapshot() == old(db.Snapshot())
      else
        var v := Inscricao(old(db.proximoInscricao), st, f.presenca, agora);
        match InscricaoClean(old(db.eventos)[k.0], old(db.inscricoes), k, v)
        case Some(err) => r == Erros(Flattened(err)) && db.Snapshot() == old(db.Snapshot())
        case None =>
          && r == Sucesso(MensagemInscricao(true))
          && db.Snapshot() == old(db.Snapshot()).(inscricoes := old(db.inscricoes)[k := v],
                                                  proximoInscricao := old(db.proximoInscricao) + 1)
  {
    var erros := ValidaInscricao(f);
    if erros != [] {
      MensagensDe(erros);
      return Erros(Mensagens(erros));
    }
    var st := ParseInscricaoStatus(f.status).value;
    if f.evento.Invalido? || f.participante.Invalido? {
      return ErroInterno;
    }
    var chave := ChaveDoForm(f);
    if chave.None? {
      return Erros([MSG_INSCRICAO_FALHOU]);
    }
    var k := chave.value;
    if k in db.inscricoes {
      var err := db.UpdateInscricao(k, st, f.presenca);
      if err.Some? {
        var flat := FlattenValidationErrors(err.value);
        return Erros(flat);
      }
      r := Sucesso(MensagemInscricao(false));
    } else {
      var criada := db.CreateInscricao(k, st, f.presenca, agora);
      if criada.Failure? {
        if criada.error.Validation? {
          var flat := FlattenValidationErrors(criada.error.error);
          return Erros(flat);
        }
        return Erros([MSG_INSCRICAO_FALHOU]);
      }
      r := Sucesso(MensagemInscricao(true));
    }
  }

  /** `InscricaoUsuarioView.post`: reads the posted fields, then upserts the registration. */
  method InscricaoUsuarioPost(db: Database, form: Form, p: Parsers, agora: int) returns (r: Feedback)
    requires db.Valid()
    modifies db
    ensures db.Valid()
    ensures var f := LerFormInscricao(form, p);
      !FormInscricaoValido(f) ==> r == Erros(Mensagens(ErrosInscricao(f)))
    ensures var f := LerFormInscricao(form, p);
      !FormInscricaoValido(f) ==>
        && r.Erros?
        && (forall e :: OcorreErroInscricao(f, e) ==> e.Mensagem() in r.erros)
        && (forall m :: m in r.erros ==> exists e :: OcorreErroInscricao(f, e) && m == e.Mensagem())
        && db.Snapshot() == old(db.Snapshot())
    ensures var f := LerFormInscricao(form, p);
      FormInscricaoValido(f) && ExcecaoInscricao(f) ==> r == ErroInterno && db.Snapshot() == old(db.Snapshot())
    ensures var f := LerFormInscricao(form, p);
      FormInscricaoValido(f) && !ExcecaoInscricao(f) && ChaveDoForm(f).None? ==>
        r == Erros([MSG_INSCRICAO_FALHOU]) && db.Snapshot() == old(db.Snapshot())
    ensures var f := LerFormInscricao(form, p);
      FormInscricaoValido(f) && ChaveDoForm(f).Some? ==>
        var k, st := ChaveDoForm(f).value, ParseInscricaoStatus(f.status).value;
        if k in old(db.inscricoes) then
          var v := old(db.inscricoes)[k].(status := st, presencaConfirmada := f.presenca);
          match InscricaoClean(old(db.eventos)[k.0], old(db.inscricoes), k, v)
          case Some(err) => r == Erros(Flattened(err)) && db.Snapshot() == old(db.Snapshot())
          case None =>
            && r == Sucesso(MensagemInscricao(false))
            && db.Snapshot() == old(db.Snapshot()).(inscricoes := old(db.inscricoes)[k := v])
        else if k.0 !in old(db.eventos) || k.1 !in old(db.usuarios) then
          r == Erros([MSG_INSCRICAO_FALHOU]) && db.Snapshot() == old(db.Snapshot())
        else
          var v := Inscricao(old(db.proximoInscricao), st, f.presenca, agora);
          match InscricaoClean(old(db.eventos)[k.0], old(db.inscricoes), k, v)
          case Some(err) => r == Erros(Flattened(err)) && db.Snapshot() == old(db.Snapshot())
          case None =>
            && r == Sucesso(MensagemInscricao(true))
            && db.Snapshot() == old(db.Snapshot()).(inscricoes := old(db.inscricoes)[k := v],
                                                    proximoInscricao := old(db.proximoInscricao) + 1)
    ensures !r.Sucesso? ==> db.inscricoes == old(db.inscricoes)
    ensures db.usuarios == old(db.usuarios) && db.eventos == old(db.eventos) && db.certificados == old(db.certificados)
  {
    r := InscricaoUsuario(db, LerFormInscricao(form, p), agora);
  }

  // ---------------------------------------------------------------------------
  // EmissaoCertificadoView
  // ---------------------------------------------------------------------------

  /** `data.get("carga_horaria") or data.get("carga") or data.get("cert_carga")`: the first of the
      three fields that was posted non-empty. */
  function CargaPostada(form: Form): (r: string)
    ensures r == "" <==> Get(form, "carga_horaria", "") == "" && Get(form, "carga", "") == "" && Get(form, "cert_carga", "") == ""
    ensures Get(form, "carga_horaria", "") != "" ==> r == Get(form, "carga_horaria", "")
    ensures Get(form, "carga_horaria", "") == "" && Get(form, "carga", "") != "" ==> r == Get(form, "carga", "")
    ensures Get(form, "carga_horaria", "") == "" && Get(form, "carga", "") == "" ==> r == Get(form, "cert_carga", "")
  {
    if Get(form, "carga_horaria", "") != "" then Get(form, "carga_horaria", "")
    else if Get(form, "carga", "") != "" then Get(form, "carga", "")
    else Get(form, "cert_carga", "")
  }

  /** The certificate form's fields: registration and issuer keys and the hours converted, the
      validity date converted when posted, and the stripped notes. */
  datatype FormCertificado = FormCertificado(inscricao: Campo, emissor: Campo, carga: Campo, validade: Campo,
                                             observacoes: string)

  function LerFormCertificado(form: Form, p: Parsers): FormCertificado {
    FormCertificado(Converte(p.inteiro, Get(form, "inscricao", "")), Converte(p.inteiro, Get(form, "emitido_por", "")),
                    Converte(p.inteiro, CargaPostada(form)), Converte(p.isoDate, Get(form, "validade", "")),
                    Strip(Get(form, "observacoes", "")))
  }

  /** When the certificate form reports `e`. */
  predicate OcorreErroCertificado(f: FormCertificado, e: ErroForm) {
    match e
    case InscricaoAusente => f.inscricao.Vazio?
    case EmissorAusente => f.emissor.Vazio?
    case CargaAusente => f.carga.Vazio?
    case CargaInvalida => f.carga.Invalido?
    case CargaNaoPositiva => f.carga.Valor? && f.carga.v <= 0
    case ValidadeInvalida => f.validade.Invalido?
    case _ => false
  }

  /** Both keys posted, positive hours, and a validity date that is absent or parses. */
  predicate FormCertificadoValido(f: FormCertificado) {
    !f.inscricao.Vazio? && !f.emissor.Vazio? && f.carga.Valor? && f.carga.v > 0 && !f.validade.Invalido?
  }

  lemma FormCertificadoValidoSpec(f: FormCertificado)
    ensures FormCertificadoValido(f) <==> forall e :: !OcorreErroCertificado(f, e)
  {
    if forall e :: !OcorreErroCertificado(f, e) {
      assert !OcorreErroCertificado(f, InscricaoAusente) && !OcorreErroCertificado(f, EmissorAusente);
      assert !OcorreErroCertificado(f, CargaAusente) && !OcorreErroCertificado(f, CargaInvalida);
      assert !OcorreErroCertificado(f, CargaNaoPositiva) && !OcorreErroCertificado(f, ValidadeInvalida);
    }
  }

  /** The hours check: absent, not a number, or not positive. */
  function ErrosCarga(carga: Campo): seq<ErroForm> {
    match carga
    case Vazio => [CargaAusente]
    case Invalido => [CargaInvalida]
    case Valor(v) => Se(v <= 0, CargaNaoPositiva)
  }

  /** The messages the certificate checks append, in order. */
  function ErrosCertificado(f: FormCertificado): seq<ErroForm> {
    Se(f.inscricao.Vazio?, InscricaoAusente) + Se(f.emissor.Vazio?, EmissorAusente)
    + ErrosCarga(f.carga) + Se(f.validade.Invalido?, ValidadeInvalida)
  }

  /** The certificate checks report `e` exactly when it occurs. */
  lemma ErrosCertificadoOcorrem(f: FormCertificado, e: ErroForm)
    ensures e in ErrosCertificado(f) <==> OcorreErroCertificado(f, e)
  {
    var carga := ErrosCarga(f.carga);
    assert e in carga <==> (e.CargaAusente? || e.CargaInvalida? || e.CargaNaoPositiva?) && OcorreErroCertificado(f, e);
    match e {
      case InscricaoAusente =>
      case EmissorAusente =>
      case ValidadeInvalida =>
      case _ =>
    }
  }

  /** The certificate checks report exactly the errors that occur, and nothing exactly when the
      form is valid. */
  lemma ErrosCertificadoSpec(f: FormCertificado)
    ensures forall e :: e in ErrosCertificado(f) <==> OcorreErroCertificado(f, e)
    ensures ErrosCertificado(f) == [] <==> FormCertificadoValido(f)
  {
    forall e ensures e in ErrosCertificado(f) <==> OcorreErroCertificado(f, e) {
      ErrosCertificadoOcorrem(f, e);
    }
    FormCertificadoValidoSpec(f);
    if ErrosCertificado(f) != [] {
      assert ErrosCertificado(f)[0] in ErrosCertificado(f);
    }
  }

  /** The checks of `EmissaoCertificadoView.post` on the posted values. */
  method ValidaCertificado(f: FormCertificado) returns (erros: seq<ErroForm>)
    ensures erros == ErrosCertificado(f)
    ensures forall e :: e in erros <==> OcorreErroCertificado(f, e)
    ensures erros == [] <==> FormCertificadoValido(f)
  {
    erros := Se(f.inscricao.Vazio?, InscricaoAusente);
    erros := erros + Se(f.emissor.Vazio?, EmissorAusente);
    match f.carga {
      case Vazio => erros := erros + [CargaAusente];
      case Invalido => erros := erros + [CargaInvalida];
      case Valor(carga) => erros := erros + Se(carga <= 0, CargaNaoPositiva);
    }
    erros := erros + Se(f.validade.Invalido?, ValidadeInvalida);
    ErrosCertificadoSpec(f);
  }

  function MensagemCertificado(criado: bool): string {
    if criado then "Certificado emitido com sucesso." else "Certificado atualizado com sucesso."
  }

  /** The validity date a valid form stores: none when the field was not posted. */
  function ValidadeDoForm(f: FormCertificado): Option<int> {
    if f.validade.Valor? then Some(f.validade.v) else None
  }

  /** A valid certificate form that may issue: its registration key is a number naming a
      registration that is confirmed with attendance, and its issuer key is a number naming an
      admin or organizer. */
  ghost predicate EmissaoAutorizada(f: FormCertificado, db: Db)
    requires InscricaoIdsUnicos(db.inscricoes)
  {
    && FormCertificadoValido(f)
    && f.inscricao.Valor?
    && InscricaoComId(db.inscricoes, f.inscricao.v).Some?
    && Elegivel(db.inscricoes[InscricaoComId(db.inscricoes, f.inscricao.v).value])
    && f.emissor.Valor?
    && UsuarioComPerfil(db.usuarios, f.emissor.v, PERFIS_ORGANIZADOR)
  }

  /** `EmissaoCertificadoView.post` on the read fields: validates them, looks up the registration
      (then checks it is eligible) and the issuer, and upserts the certificate keyed by the
      registration. */
  method EmissaoCertificado(db: Database, f: FormCertificado, agora: int) returns (r: Feedback)
    requires db.Valid()
    modifies db
    ensures db.Valid()
    ensures !FormCertificadoValido(f) ==> r == Erros(Mensagens(ErrosCertificado(f)))
    ensures !FormCertificadoValido(f) ==>
      && r.Erros?
      && (forall e :: OcorreErroCertificado(f, e) ==> e.Mensagem() in r.erros)
      && (forall m :: m in r.erros ==> exists e :: OcorreErroCertificado(f, e) && m == e.Mensagem())
    ensures FormCertificadoValido(f) && f.inscricao.Invalido? ==> r == ErroInterno
    ensures FormCertificadoValido(f) && f.inscricao.Valor? ==>
      var achada := InscricaoComId(old(db.inscricoes), f.inscricao.v);
      && (achada.None? ==> r == Erros([MSG_INSCRICAO_NAO_ENCONTRADA]))
      && (achada.Some? && !Elegivel(old(db.inscricoes)[achada.value]) ==> r == Erros([MSG_INSCRICAO_INELEGIVEL]))
      && (achada.Some? && Elegivel(old(db.inscricoes)[achada.value]) && f.emissor.Invalido? ==> r == ErroInterno)
      && ((achada.Some? && Elegivel(old(db.inscricoes)[achada.value]) && f.emissor.Valor?
           && !UsuarioComPerfil(old(db.usuarios), f.emissor.v, PERFIS_ORGANIZADOR))
          ==> r == Erros([MSG_EMISSOR_INVALIDO]))
    ensures r.Sucesso? <==> EmissaoAutorizada(f, old(db.Snapshot()))
    ensures !r.Sucesso? ==> db.Snapshot() == old(db.Snapshot())
    ensures r.Sucesso? ==>
      var k := InscricaoComId(old(db.inscricoes), f.inscricao.v).value;
      var emissor := Some(f.emissor.v as nat);
      && r == Sucesso(MensagemCertificado(k !in old(db.certificados)))
      && (k !in old(db.certificados) ==>
            && db.certificados == old(db.certificados)[k := Certificado(old(db.proximoCodigo), emissor, f.carga.v,
                                                                      ValidadeDoForm(f), f.observacoes, agora)]
            && db.proximoCodigo == old(db.proximoCodigo) + 1)
      && (k in old(db.certificados) ==>
            && db.certificados == old(db.certificados)[k := old(db.certificados)[k].(emitidoPor := emissor, cargaHoraria := f.carga.v,
                                                                                  validade := ValidadeDoForm(f), observacoes := f.observacoes)]
            && db.proximoCodigo == old(db.proximoCodigo))
      && db.usuarios == old(db.usuarios) && db.eventos == old(db.eventos) && db.inscricoes == old(db.inscricoes)
  {
    var erros := ValidaCertificado(f);
    if erros != [] {
      MensagensDe(erros);
      return Erros(Mensagens(erros));
    }
    if f.inscricao.Invalido? {
      return ErroInterno;
    }
    var achada := InscricaoComId(db.inscricoes, f.inscricao.v);
    if achada.None? {
      return Erros([MSG_INSCRICAO_NAO_ENCONTRADA]);
    }
    var k := achada.value;
    if !Elegivel(db.inscricoes[k]) {
      return Erros([MSG_INSCRICAO_INELEGIVEL]);
    }
    if f.emissor.Invalido? {
      return ErroInterno;
    }
    if !UsuarioComPerfil(db.usuarios, f.emissor.v, PERFIS_ORGANIZADOR) {
      return Erros([MSG_EMISSOR_INVALIDO]);
    }
    var salvo := db.UpsertCertificado(k, Some(f.emissor.v as nat), f.carga.v, ValidadeDoForm(f), f.observacoes, agora);
    r := Sucesso(MensagemCertificado(salvo.value));
  }

  /** `EmissaoCertificadoView.post`: reads the posted fields, then issues or updates the
      certificate. */
  method EmissaoCertificadoPost(db: Database, form: Form, p: Parsers, agora: int) returns (r: Feedback)
    requires db.Valid()
    modifies db
    ensures db.Valid()
    ensures var f := LerFormCertificado(form, p);
      !FormCertificadoValido(f) ==> r == Erros(Mensagens(ErrosCertificado(f)))
    ensures var f := LerFormCertificado(form, p);
      !FormCertificadoValido(f) ==>
        && r.Erros?
        && (forall e :: OcorreErroCertificado(f, e) ==> e.Mensagem() in r.erros)
        && (forall m :: m in r.erros ==> exists e :: OcorreErroCertificado(f, e) && m == e.Mensagem())
    ensures var f := LerFormCertificado(form, p);
      FormCertificadoValido(f) && f.inscricao.Invalido? ==> r == ErroInterno
    ensures var f := LerFormCertificado(form, p);
      FormCertificadoValido(f) && f.inscricao.Valor? ==>
        var achada := InscricaoComId(old(db.inscricoes), f.inscricao.v);
        && (achada.None? ==> r == Erros([MSG_INSCRICAO_NAO_ENCONTRADA]))
        && (achada.Some? && !Elegivel(old(db.inscricoes)[achada.value]) ==> r == Erros([MSG_INSCRICAO_INELEGIVEL]))
        && (achada.Some? && Elegivel(old(db.inscricoes)[achada.value]) && f.emissor.Invalido? ==> r == ErroInterno)
        && ((achada.Some? && Elegivel(old(db.inscricoes)[achada.value]) && f.emissor.Valor?
             && !UsuarioComPerfil(old(db.usuarios), f.emissor.v, PERFIS_ORGANIZADOR))
            ==> r == Erros([MSG_EMISSOR_INVALIDO]))
    ensures var f := LerFormCertificado(form, p);
      r.Sucesso? <==> EmissaoAutorizada(f, old(db.Snapshot()))
    ensures var f := LerFormCertificado(form, p);
      !r.Sucesso? ==> db.Snapshot() == old(db.Snapshot())
    ensures var f := LerFormCertificado(form, p);
      r.Sucesso? ==>
        var k := InscricaoComId(old(db.inscricoes), f.inscricao.v).value;
        var emissor := Some(f.emissor.v as nat);
        && r == Sucesso(MensagemCertificado(k !in old(db.certificados)))
        && (k !in old(db.certificados) ==>
              && db.certificados == old(db.certificados)[k := Certificado(old(db.proximoCodigo), emissor, f.carga.v,
                                                                        ValidadeDoForm(f), f.observacoes, agora)]
              && db.proximoCodigo == old(db.proximoCodigo) + 1)
        && (k in old(db.certificados) ==>
              && db.certificados == old(db.certificados)[k := old(db.certificados)[k].(emitidoPor := emissor, cargaHoraria := f.carga.v,
                                                                                    validade := ValidadeDoForm(f), observacoes := f.observacoes)]
              && db.proximoCodigo == old(db.proximoCodigo))
        && db.usuarios == old(db.usuarios) && db.eventos == old(db.eventos) && db.inscricoes == old(db.inscricoes)
  {
    r := EmissaoCertificado(db, LerFormCertificado(form, p), agora);
  }
}
