/** The relational store behind the models: four tables held as maps, the auto-increment
    counters that hand out primary keys and certificate codes, and the save operations that the
    request handlers call. Each save runs the model validation of its entity and the database
    constraints, and writes nothing when either rejects it. */
module Store {
  import opened Wrappers
  import opened Models

  /** Why a save was refused: the model's validation raised a `ValidationError`, or the database raised an
      `IntegrityError` (a foreign key, unique or check constraint). */
  datatype SaveError = Validation(error: ValidationError) | Integrity

  /** A snapshot of the whole store. */
  datatype Db = Db(
    usuarios: map<UserId, Usuario>,
    eventos: map<EventId, Evento>,
    inscricoes: map<InscricaoKey, Inscricao>,
    certificados: map<InscricaoKey, Certificado>,
    proximoUsuario: nat,
    proximoEvento: nat,
    proximoInscricao: nat,
    proximoCodigo: nat)

  /** Usernames are unique (the `username` column of the user model). */
  ghost predicate UsernamesUnicos(usuarios: map<UserId, Usuario>) {
    forall a, b {:trigger usuarios[a], usuarios[b]} :: a in usuarios && b in usuarios && a != b ==> usuarios[a].username != usuarios[b].username
  }

  /** Certificate codes are unique. */
  ghost predicate CodigosUnicos(certificados: map<InscricaoKey, Certificado>) {
    forall a, b {:trigger certificados[a], certificados[b]} :: a in certificados && b in certificados && a != b ==> certificados[a].codigo != certificados[b].codigo
  }

  /** Users: keys below the counter, the institution constraint, unique usernames. */
  ghost predicate UsuariosValidos(usuarios: map<UserId, Usuario>, proximo: nat) {
    && (forall u {:trigger usuarios[u]} :: u in usuarios ==> u < proximo && UsuarioCheckConstraint(usuarios[u]))
    && UsernamesUnicos(usuarios)
  }

  /** Events: keys below the counter, the check constraints, an existing organizer. */
  ghost predicate EventosValidos(eventos: map<EventId, Evento>, usuarios: map<UserId, Usuario>, proximo: nat) {
    forall e {:trigger eventos[e]} :: e in eventos ==> e < proximo && EventoCheckConstraints(eventos[e]) && eventos[e].organizador in usuarios
  }

  /** Registration primary keys are unique. */
  ghost predicate InscricaoIdsUnicos(inscricoes: map<InscricaoKey, Inscricao>) {
    forall a, b {:trigger inscricoes[a], inscricoes[b]} :: a in inscricoes && b in inscricoes && a != b ==> inscricoes[a].id != inscricoes[b].id
  }

  /** Registrations: both foreign keys exist, primary keys below the counter and unique. */
  ghost predicate InscricoesValidas(inscricoes: map<InscricaoKey, Inscricao>, eventos: map<EventId, Evento>,
                                    usuarios: map<UserId, Usuario>, proximo: nat) {
    && (forall k {:trigger inscricoes[k]} :: k in inscricoes ==> k.0 in eventos && k.1 in usuarios && inscricoes[k].id < proximo)
    && InscricaoIdsUnicos(inscricoes)
  }

  /** Certificates: the registration and the issuer exist, the code was handed out. */
  ghost predicate CertificadosValidos(certificados: map<InscricaoKey, Certificado>, inscricoes: map<InscricaoKey, Inscricao>,
                                      usuarios: map<UserId, Usuario>, proximo: nat) {
    forall k {:trigger certificados[k]} :: k in certificados ==>
      && k in inscricoes
      && 1 <= certificados[k].codigo < proximo
      && (certificados[k].emitidoPor.Some? ==> certificados[k].emitidoPor.value in usuarios)
  }

  /** What every committed state satisfies: the check constraints, the foreign keys, unique
      usernames and codes, fresh counters, and the capacity rule. */
  ghost predicate Consistent(db: Db) {
    && UsuariosValidos(db.usuarios, db.proximoUsuario)
    && EventosValidos(db.eventos, db.usuarios, db.proximoEvento)
    && InscricoesValidas(db.inscricoes, db.eventos, db.usuarios, db.proximoInscricao)
    && CapacidadeRespeitada(db.eventos, db.inscricoes)
    && CertificadosValidos(db.certificados, db.inscricoes, db.usuarios, db.proximoCodigo)
    && CodigosUnicos(db.certificados)
    && db.proximoCodigo >= 1
  }

  /** The normalisations `create_user` applies before saving: `normalize_username` (Unicode NFKC)
      and `normalize_email` (the domain part lower-cased). */
  datatype Normalizacao = Normalizacao(username: string -> string, email: string -> string)

  /** The user `create_user` saves: the given one with its username and e-mail normalised. */
  function Normalizado(u: Usuario, n: Normalizacao): (v: Usuario)
    ensures v.nome == u.nome && v.telefone == u.telefone && v.perfil == u.perfil && v.instituicao == u.instituicao
    ensures v.username == n.username(u.username) && v.email == n.email(u.email)
  {
    u.(username := n.username(u.username), email := n.email(u.email))
  }

  /** Some user already has this username. */
  predicate UsernameEmUso(usuarios: map<UserId, Usuario>, username: string) {
    exists u :: u in usuarios && usuarios[u].username == username
  }

  /** A certificate that keeps its registration's code, or takes a code above every code in use,
      keeps the codes unique. */
  lemma {:induction false} CodigosUnicosAfterWrite(certs: map<InscricaoKey, Certificado>, k: InscricaoKey, c: Certificado, proximo: nat)
    requires CodigosUnicos(certs)
    requires forall x :: x in certs ==> certs[x].codigo < proximo
    requires (k in certs && c.codigo == certs[k].codigo) || c.codigo >= proximo
    ensures CodigosUnicos(certs[k := c])
  {
    var after := certs[k := c];
    forall a, b | a in after && b in after && a != b ensures after[a].codigo != after[b].codigo {
      if a == k {
        assert b in certs && after[b] == certs[b];
      } else if b == k {
        assert a in certs && after[a] == certs[a];
      } else {
        assert after[a] == certs[a] && after[b] == certs[b];
      }
    }
  }

  /** Writing certificate `c` at registration `k` keeps the store consistent when `c` keeps the
      code `k` already had, or takes a code no certificate has yet. */
  lemma {:induction false} CertificadoWriteConsistent(db: Db, k: InscricaoKey, c: Certificado, proximo: nat)
    requires Consistent(db)
    requires k in db.inscricoes
    requires c.emitidoPor.Some? ==> c.emitidoPor.value in db.usuarios
    requires db.proximoCodigo <= proximo && 1 <= c.codigo < proximo
    requires (k in db.certificados && c.codigo == db.certificados[k].codigo) || c.codigo >= db.proximoCodigo
    ensures Consistent(db.(certificados := db.certificados[k := c], proximoCodigo := proximo))
  {
    CodigosUnicosAfterWrite(db.certificados, k, c, db.proximoCodigo);
  }

  /** `Inscricao.objects.get(pk=pk)`: the registration with that primary key, if any. Primary
      keys are unique, so there is at most one. */
  function InscricaoComId(inscricoes: map<InscricaoKey, Inscricao>, pk: int): (r: Option<InscricaoKey>)
    requires InscricaoIdsUnicos(inscricoes)
    ensures r.Some? ==> r.value in inscricoes && inscricoes[r.value].id == pk
    ensures r.None? <==> forall k :: k in inscricoes ==> inscricoes[k].id != pk
  {
    if exists k :: k in inscricoes && inscricoes[k].id == pk then
      var k :| k in inscricoes && inscricoes[k].id == pk;
      Some(k)
    else
      None
  }

  /** Rewriting registration `k` under its own primary key, or adding a new registration with a
      fresh primary key, keeps the store consistent as long as capacity is respected. */
  lemma {:induction false} InscricaoWriteConsistent(db: Db, k: InscricaoKey, v: Inscricao, proximo: nat)
    requires Consistent(db)
    requires k.0 in db.eventos && k.1 in db.usuarios
    requires CapacidadeRespeitada(db.eventos, db.inscricoes[k := v])
    requires (k in db.inscricoes && v.id == db.inscricoes[k].id && proximo == db.proximoInscricao)
             || (k !in db.inscricoes && v.id == db.proximoInscricao && proximo == db.proximoInscricao + 1)
    ensures Consistent(db.(inscricoes := db.inscricoes[k := v], proximoInscricao := proximo))
  {
    var after := db.inscricoes[k := v];
    IdsUnicosAfterWrite(db.inscricoes, k, v, db.proximoInscricao);
    assert forall x :: x in after ==> x.0 in db.eventos && x.1 in db.usuarios && after[x].id < proximo;
    assert InscricoesValidas(after, db.eventos, db.usuarios, proximo);
    assert after.Keys >= db.inscricoes.Keys;
    assert CertificadosValidos(db.certificados, after, db.usuarios, db.proximoCodigo);
  }

  /** A registration that keeps its primary key, or takes one above every key in use, keeps the
      primary keys unique. */
  lemma {:induction false} IdsUnicosAfterWrite(inscricoes: map<InscricaoKey, Inscricao>, k: InscricaoKey, v: Inscricao, proximo: nat)
    requires InscricaoIdsUnicos(inscricoes)
    requires forall x :: x in inscricoes ==> inscricoes[x].id < proximo
    requires (k in inscricoes && v.id == inscricoes[k].id) || v.id >= proximo
    ensures InscricaoIdsUnicos(inscricoes[k := v])
  {
    var after := inscricoes[k := v];
    forall a, b | a in after && b in after && a != b ensures after[a].id != after[b].id {
      if a == k {
        assert b in inscricoes && after[b] == inscricoes[b];
      } else if b == k {
        assert a in inscricoes && after[a] == inscricoes[a];
      } else {
        assert after[a] == inscricoes[a] && after[b] == inscricoes[b];
      }
    }
  }

  /** Removing a registration together with its certificate keeps the store consistent. */
  lemma {:induction false} DeleteConsistent(db: Db, k: InscricaoKey)
    requires Consistent(db)
    ensures Consistent(Db(db.usuarios, db.eventos, db.inscricoes - {k}, db.certificados - {k},
                          db.proximoUsuario, db.proximoEvento, db.proximoInscricao, db.proximoCodigo))
  {
    var inscricoes, certificados := db.inscricoes - {k}, db.certificados - {k};
    forall e | e in db.eventos ensures |Confirmadas(inscricoes, e)| <= db.eventos[e].capacidade {
      SubsetCardinality(Confirmadas(inscricoes, e), Confirmadas(db.inscricoes, e));
    }
    assert InscricoesValidas(inscricoes, db.eventos, db.usuarios, db.proximoInscricao);
    assert CertificadosValidos(certificados, inscricoes, db.usuarios, db.proximoCodigo);
    assert CodigosUnicos(certificados);
  }

  class Database {
    var usuarios: map<UserId, Usuario>
    var eventos: map<EventId, Evento>
    var inscricoes: map<InscricaoKey, Inscricao>
    var certificados: map<InscricaoKey, Certificado>
    var proximoUsuario: nat
    var proximoEvento: nat
    var proximoInscricao: nat
    var proximoCodigo: nat

    function Snapshot(): Db
      reads this
    {
      Db(usuarios, eventos, inscricoes, certificados, proximoUsuario, proximoEvento, proximoInscricao, proximoCodigo)
    }

    ghost predicate Valid()
      reads this
    {
      Consistent(Snapshot())
    }

    /** An empty database. */
    constructor ()
      ensures Valid()
      ensures usuarios == map[] && eventos == map[] && inscricoes == map[] && certificados == map[]
    {
      usuarios, eventos, inscricoes, certificados := map[], map[], map[], map[];
      proximoUsuario, proximoEvento, proximoInscricao, proximoCodigo := 0, 0, 0, 1;
    }

    /** `Usuario.objects.create_user(...)`: normalises the username and the e-mail with `n`, then
        inserts the user under a fresh key unless the normalised username is taken or the
        institution constraint fails (both `IntegrityError`). `clean()` is not run. */
    method CreateUsuario(u: Usuario, n: Normalizacao) returns (r: Result<UserId, SaveError>)
      requires Valid()
      modifies this
      ensures Valid()
      ensures r.Success? <==> !UsernameEmUso(old(usuarios), n.username(u.username)) && UsuarioCheckConstraint(u)
      ensures r.Failure? ==> r.error == Integrity && usuarios == old(usuarios)
      ensures r.Success? ==> r.value == old(proximoUsuario) && r.value !in old(usuarios)
                             && usuarios == old(usuarios)[r.value := Normalizado(u, n)]
      ensures r.Success? ==> proximoUsuario == old(proximoUsuario) + 1
      ensures r.Failure? ==> proximoUsuario == old(proximoUsuario)
      ensures eventos == old(eventos) && inscricoes == old(inscricoes) && certificados == old(certificados)
      ensures proximoEvento == old(proximoEvento) && proximoInscricao == old(proximoInscricao) && proximoCodigo == old(proximoCodigo)
    {
      var v := Normalizado(u, n);
      if UsernameEmUso(usuarios, v.username) || !UsuarioCheckConstraint(v) {
        return Failure(Integrity);
      }
      var id := proximoUsuario;
      usuarios := usuarios[id := v];
      proximoUsuario := proximoUsuario + 1;
      r := Success(id);
    }

    /** `Evento.objects.create(...)`: inserts the event under a fresh key unless a CheckConstraint
        fails or the organizer does not exist (`IntegrityError`). `clean()` is not run. */
    method CreateEvento(ev: Evento) returns (r: Result<EventId, SaveError>)
      requires Valid()
      modifies this
      ensures Valid()
      ensures r.Success? <==> EventoCheckConstraints(ev) && ev.organizador in old(usuarios)
      ensures r.Failure? ==> r.error == Integrity && eventos == old(eventos)
      ensures r.Success? ==> r.value == old(proximoEvento) && r.value !in old(eventos) && eventos == old(eventos)[r.value := ev]
      ensures r.Success? ==> proximoEvento == old(proximoEvento) + 1
      ensures r.Failure? ==> proximoEvento == old(proximoEvento)
      ensures usuarios == old(usuarios) && inscricoes == old(inscricoes) && certificados == old(certificados)
      ensures proximoUsuario == old(proximoUsuario) && proximoInscricao == old(proximoInscricao) && proximoCodigo == old(proximoCodigo)
    {
      if !EventoCheckConstraints(ev) || ev.organizador !in usuarios {
        return Failure(Integrity);
      }
      var id := proximoEvento;
      ghost var before := inscricoes;
      eventos := eventos[id := ev];
      proximoEvento := proximoEvento + 1;
      assert Confirmadas(inscricoes, id) == {} by {
        forall k | k in inscricoes ensures k.0 != id { }
      }
      r := Success(id);
    }

    /** `Inscricao.objects.create(...)` for the pair `k`: the pair must be new (unique together)
        and both foreign keys must exist (`IntegrityError`), then the capacity check of the
        save must pass; only then is a row with a fresh primary key written. */
    method CreateInscricao(k: InscricaoKey, status: InscricaoStatus, presenca: bool, agora: int)
      returns (r: Result<nat, SaveError>)
      requires Valid()
      modifies this
      ensures Valid()
      ensures k in old(inscricoes) || k.0 !in old(eventos) || k.1 !in old(usuarios) ==> r == Failure(Integrity)
      ensures k !in old(inscricoes) && k.0 in old(eventos) && k.1 in old(usuarios) ==>
        r == (match InscricaoClean(old(eventos)[k.0], old(inscricoes), k, Inscricao(old(proximoInscricao), status, presenca, agora))
              case Some(err) => Failure(Validation(err))
              case None => Success(old(proximoInscricao)))
      ensures r.Success? ==> inscricoes == old(inscricoes)[k := Inscricao(r.value, status, presenca, agora)]
                             && proximoInscricao == old(proximoInscricao) + 1
      ensures r.Failure? ==> inscricoes == old(inscricoes) && proximoInscricao == old(proximoInscricao)
      ensures usuarios == old(usuarios) && eventos == old(eventos) && certificados == old(certificados)
      ensures proximoUsuario == old(proximoUsuario) && proximoEvento == old(proximoEvento)
      ensures proximoCodigo == old(proximoCodigo)
    {
      if k in inscricoes || k.0 !in eventos || k.1 !in usuarios {
        return Failure(Integrity);
      }
      var v := Inscricao(proximoInscricao, status, presenca, agora);
      var err := InscricaoClean(eventos[k.0], inscricoes, k, v);
      if err.Some? {
        return Failure(Validation(err.value));
      }
      SaveKeepsCapacidade(eventos, inscricoes, k, v);
      InscricaoWriteConsistent(Snapshot(), k, v, proximoInscricao + 1);
      inscricoes := inscricoes[k := v];
      r := Success(proximoInscricao);
      proximoInscricao := proximoInscricao + 1;
    }

    /** `inscricao.save()` on a row that was read from the store, after its status and attendance
        were assigned: the capacity check of the save must pass; only then is the row
        written, keeping its primary key and registration date. */
    method UpdateInscricao(k: InscricaoKey, status: InscricaoStatus, presenca: bool) returns (r: Option<ValidationError>)
      requires Valid() && k in inscricoes
      modifies this
      ensures Valid()
      ensures r == InscricaoClean(old(eventos)[k.0], old(inscricoes), k,
                                  old(inscricoes)[k].(status := status, presencaConfirmada := presenca))
      ensures r.None? ==> inscricoes == old(inscricoes)[k := old(inscricoes)[k].(status := status, presencaConfirmada := presenca)]
      ensures r.Some? ==> inscricoes == old(inscricoes)
      ensures usuarios == old(usuarios) && eventos == old(eventos) && certificados == old(certificados)
      ensures proximoUsuario == old(proximoUsuario) && proximoEvento == old(proximoEvento)
      ensures proximoInscricao == old(proximoInscricao) && proximoCodigo == old(proximoCodigo)
    {
      var v := inscricoes[k].(status := status, presencaConfirmada := presenca);
      r := InscricaoClean(eventos[k.0], inscricoes, k, v);
      if r.Some? {
        return;
      }
      SaveKeepsCapacidade(eventos, inscricoes, k, v);
      InscricaoWriteConsistent(Snapshot(), k, v, proximoInscricao);
      inscricoes := inscricoes[k := v];
    }

    /** `inscricao.delete()`: removes the registration and, through the one-to-one cascade, its
        certificate. */
    method DeleteInscricao(k: InscricaoKey)
      requires Valid() && k in inscricoes
      modifies this
      ensures Valid()
      ensures inscricoes == old(inscricoes) - {k} && certificados == old(certificados) - {k}
      ensures usuarios == old(usuarios) && eventos == old(eventos)
      ensures proximoUsuario == old(proximoUsuario) && proximoEvento == old(proximoEvento)
      ensures proximoInscricao == old(proximoInscricao) && proximoCodigo == old(proximoCodigo)
    {
      DeleteConsistent(Snapshot(), k);
      inscricoes, certificados := inscricoes - {k}, certificados - {k};
    }

    /** `Certificado.objects.update_or_create(inscricao=k, defaults=...)`: the registration must
        exist and be eligible (the eligibility check of the save), and the issuer, when given, must
        exist. An existing certificate keeps its code and issue time and takes the new issuer,
        hours, validity and notes; otherwise a certificate with a fresh code is created. */
    method UpsertCertificado(k: InscricaoKey, emitidoPor: Option<UserId>, cargaHoraria: int,
                             validade: Option<int>, observacoes: string, agora: int)
      returns (r: Result<bool, SaveError>)
      requires Valid()
      modifies this
      ensures Valid()
      ensures k !in old(inscricoes) || (emitidoPor.Some? && emitidoPor.value !in old(usuarios)) ==> r == Failure(Integrity)
      ensures k in old(inscricoes) && (emitidoPor.Some? ==> emitidoPor.value in old(usuarios)) ==>
        if Elegivel(old(inscricoes)[k]) then r == Success(k !in old(certificados))
        else r == Failure(Validation(CertificadoClean(old(inscricoes)[k]).value))
      ensures r.Failure? ==> certificados == old(certificados) && proximoCodigo == old(proximoCodigo)
      ensures r == Success(true) ==>
        && certificados == old(certificados)[k := Certificado(old(proximoCodigo), emitidoPor, cargaHoraria, validade, observacoes, agora)]
        && proximoCodigo == old(proximoCodigo) + 1
      ensures r == Success(false) ==>
        && certificados == old(certificados)[k := old(certificados)[k].(emitidoPor := emitidoPor, cargaHoraria := cargaHoraria,
                                                                        validade := validade, observacoes := observacoes)]
        && proximoCodigo == old(proximoCodigo)
      ensures usuarios == old(usuarios) && eventos == old(eventos) && inscricoes == old(inscricoes)
      ensures proximoUsuario == old(proximoUsuario) && proximoEvento == old(proximoEvento) && proximoInscricao == old(proximoInscricao)
    {
      if k !in inscricoes || (emitidoPor.Some? && emitidoPor.value !in usuarios) {
        return Failure(Integrity);
      }
      var err := CertificadoClean(inscricoes[k]);
      if err.Some? {
        return Failure(Validation(err.value));
      }
      var criado := k !in certificados;
      var c := if criado then Certificado(proximoCodigo, emitidoPor, cargaHoraria, validade, observacoes, agora)
               else certificados[k].(emitidoPor := emitidoPor, cargaHoraria := cargaHoraria,
                                     validade := validade, observacoes := observacoes);
      var proximo := if criado then proximoCodigo + 1 else proximoCodigo;
      CertificadoWriteConsistent(Snapshot(), k, c, proximo);
      certificados, proximoCodigo := certificados[k := c], proximo;
      r := Success(criado);
    }
  

    /** `Certificado.objects.create(inscricao=k, ...)`: the registration must exist and be
        eligible, the issuer, when given, must exist, and the registration must not have a
        certificate yet (the one-to-one column is unique). The new certificate takes a fresh
        code. */
    method CreateCertificado(k: InscricaoKey, emitidoPor: Option<UserId>, cargaHoraria: int,
                             validade: Option<int>, observacoes: string, agora: int)
      returns (r: Result<nat, SaveError>)
      requires Valid()
      modifies this
      ensures Valid()
      ensures k !in old(inscricoes) || (emitidoPor.Some? && emitidoPor.value !in old(usuarios)) ==> r == Failure(Integrity)
      ensures k in old(inscricoes) && (emitidoPor.Some? ==> emitidoPor.value in old(usuarios)) ==>
        if !Elegivel(old(inscricoes)[k]) then r == Failure(Validation(CertificadoClean(old(inscricoes)[k]).value))
        else if k in old(certificados) then r == Failure(Integrity)
        else r == Success(old(proximoCodigo))
      ensures r.Failure? ==> Snapshot() == old(Snapshot())
      ensures r.Success? ==>
        Snapshot() == old(Snapshot()).(certificados := old(certificados)[k := Certificado(old(proximoCodigo), emitidoPor, cargaHoraria, validade, observacoes, agora)],
                                       proximoCodigo := old(proximoCodigo) + 1)
    {
      if k !in inscricoes || (emitidoPor.Some? && emitidoPor.value !in usuarios) {
        return Failure(Integrity);
      }
      var err := CertificadoClean(inscricoes[k]);
      if err.Some? {
        return Failure(Validation(err.value));
      }
      if k in certificados {
        return Failure(Integrity);
      }
      CertificadoWriteConsistent(Snapshot(), k, Certificado(proximoCodigo, emitidoPor, cargaHoraria, validade, observacoes, agora), proximoCodigo + 1);
      certificados := certificados[k := Certificado(proximoCodigo, emitidoPor, cargaHoraria, validade, observacoes, agora)];
      r := Success(proximoCodigo);
      proximoCodigo := proximoCodigo + 1;
    }
  }
}
